/**
 The project list of the web client. A load captures a version; every later load and every local change of the list
 takes the version on, so that the answer of an older load is not written.
 */
module ProjectsStore {
  import opened Prelude

  datatype Project = Project(id: Id, body: string)

  datatype Answer = Loaded(projects: seq<Project>) | LoadFailed

  datatype Store = Store(
    projects: seq<Project>,
    isLoading: bool,
    hasLoaded: bool,
    error: bool,
    version: nat,
    inFlight: set<nat>)

  const FRESH := Store([], false, false, false, 0, {})

  function Others(projects: seq<Project>, id: Id): seq<Project> {
    if projects == [] then []
    else
      var init, last := projects[..|projects| - 1], projects[|projects| - 1];
      Others(init, id) + if last.id != id then [last] else []
  }

  function Replaced(projects: seq<Project>, p: Project): seq<Project> {
    seq(|projects|, i requires 0 <= i < |projects| => if projects[i].id == p.id then p else projects[i])
  }

  function Invalidate(s: Store): Store {
    s.(version := s.version + 1, isLoading := false, error := false)
  }

  datatype Label =
    | Load
    | Answered(version: nat, a: Answer)
    | ResetStore
    | Upsert(p: Project)
    | Replace(p: Project)
    | Remove(id: Id)

  predicate Can(s: Store, l: Label) {
    l.Answered? ==> l.version in s.inFlight
  }

  function Next(s: Store, l: Label): Store {
    match l
    case Load =>
      s.(version := s.version + 1, isLoading := true, error := false, inFlight := s.inFlight + {s.version + 1})
    case Answered(v, a) =>
      var s1 := s.(inFlight := s.inFlight - {v});
      if v != s.version then s1
      else if a.Loaded? then s1.(projects := a.projects, hasLoaded := true, isLoading := false)
      else s1.(error := true, isLoading := false)
    case ResetStore => Invalidate(s).(projects := [], hasLoaded := false)
    case Upsert(p) => if p.id == "" then s else Invalidate(s).(projects := [p] + Others(s.projects, p.id))
    case Replace(p) => if p.id == "" then s else Invalidate(s).(projects := Replaced(s.projects, p))
    case Remove(id) => if id == "" then s else Invalidate(s).(projects := Others(s.projects, id))
  }

  /** Loading means that the load of the current version is under way. */
  ghost predicate Inv(s: Store) {
    && (s.isLoading <==> s.version in s.inFlight)
    && (forall v | v in s.inFlight :: v <= s.version)
  }

  class Projects {
    var projects: seq<Project>
    var isLoading: bool
    var hasLoaded: bool
    var error: bool
    var requestVersion: nat
    ghost var inFlight: set<nat>

    ghost function View(): Store
      reads this
    {
      Store(projects, isLoading, hasLoaded, error, requestVersion, inFlight)
    }

    constructor ()
      ensures View() == FRESH && Inv(View())
    {
      projects, isLoading, hasLoaded, error, requestVersion, inFlight := [], false, false, false, 0, {};
    }

    method InvalidatePendingLoad()
      modifies this`requestVersion, this`isLoading, this`error
      ensures View() == Invalidate(old(View()))
    {
      requestVersion := requestVersion + 1;
      isLoading, error := false, false;
    }

    method BeginLoad() returns (currentVersion: nat)
      requires Inv(View())
      modifies this
      ensures Inv(View()) && View() == Next(old(View()), Load) && currentVersion == requestVersion
    {
      requestVersion := requestVersion + 1;
      currentVersion := requestVersion;
      isLoading, error := true, false;
      inFlight := inFlight + {currentVersion};
    }

    method EndLoad(currentVersion: nat, a: Answer)
      requires Inv(View()) && currentVersion in inFlight
      modifies this
      ensures Inv(View()) && View() == Next(old(View()), Answered(currentVersion, a))
    {
      inFlight := inFlight - {currentVersion};
      if a.Loaded? {
        if currentVersion == requestVersion {
          projects, hasLoaded := a.projects, true;
        }
      } else {
        if currentVersion == requestVersion {
          error := true;
        }
      }
      if currentVersion == requestVersion {
        isLoading := false;
      }
    }

    method ResetAll()
      requires Inv(View())
      modifies this
      ensures Inv(View()) && View() == Next(old(View()), ResetStore)
    {
      InvalidatePendingLoad();
      projects, hasLoaded := [], false;
    }

    method UpsertProject(p: Project)
      requires Inv(View())
      modifies this
      ensures Inv(View()) && View() == Next(old(View()), Upsert(p))
    {
      if p.id == "" {
        return;
      }
      InvalidatePendingLoad();
      projects := [p] + Others(projects, p.id);
    }

    method ReplaceProject(p: Project)
      requires Inv(View())
      modifies this
      ensures Inv(View()) && View() == Next(old(View()), Replace(p))
    {
      if p.id == "" {
        return;
      }
      InvalidatePendingLoad();
      projects := Replaced(projects, p);
    }

    method RemoveProject(id: Id)
      requires Inv(View())
      modifies this
      ensures Inv(View()) && View() == Next(old(View()), Remove(id))
    {
      if id == "" {
        return;
      }
      InvalidatePendingLoad();
      projects := Others(projects, id);
    }
  }

  function From(s: Store, labels: seq<Label>): Store {
    if labels == [] then s else Next(From(s, labels[..|labels| - 1]), labels[|labels| - 1])
  }

  predicate Possible(s: Store, labels: seq<Label>) {
    labels == []
    || (Possible(s, labels[..|labels| - 1]) && Can(From(s, labels[..|labels| - 1]), labels[|labels| - 1]))
  }

  lemma {:induction false} LoadingMeansUnderWay(labels: seq<Label>)
    requires Possible(FRESH, labels)
    ensures Inv(From(FRESH, labels))
  {
    if labels != [] {
      LoadingMeansUnderWay(labels[..|labels| - 1]);
    }
  }

  /** Starts another load or changes the list. */
  predicate Touches(l: Label) {
    match l
    case Load => true
    case Answered(_, _) => false
    case ResetStore => true
    case Upsert(p) => p.id != ""
    case Replace(p) => p.id != ""
    case Remove(id) => id != ""
  }

  lemma {:induction false} VersionCounts(s: Store, labels: seq<Label>)
    ensures From(s, labels).version >= s.version
    ensures From(s, labels).version == s.version <==> forall i | 0 <= i < |labels| :: !Touches(labels[i])
  {
    if labels != [] {
      var init, last := labels[..|labels| - 1], labels[|labels| - 1];
      VersionCounts(s, init);
      assert forall i | 0 <= i < |init| :: init[i] == labels[i];
      assert From(s, labels).version == From(s, init).version + if Touches(last) then 1 else 0;
    }
  }

  /**
   The answer of a load is taken exactly when nothing has touched the list since the load began; otherwise it changes
   nothing, not even the loading flag or the error.
   */
  lemma TakenIffUntouched(s: Store, labels: seq<Label>, a: Answer)
    ensures var v := s.version + 1;
            var s1 := From(Next(s, Load), labels);
            var s2 := Next(s1, Answered(v, a));
            if forall i | 0 <= i < |labels| :: !Touches(labels[i]) then
              !s2.isLoading && (a.Loaded? ==> s2.projects == a.projects && s2.hasLoaded) && (a.LoadFailed? ==> s2.error)
            else s2 == s1.(inFlight := s1.inFlight - {v})
  {
    VersionCounts(Next(s, Load), labels);
  }

  /** What the page shows while and after: a new load clears the error, a reset leaves nothing, a local change stops loading. */
  lemma FlagsRight(s: Store, l: Label)
    ensures l.Load? ==> Next(s, l).isLoading && !Next(s, l).error && Next(s, l).projects == s.projects
    ensures l.ResetStore? ==>
        Next(s, l).projects == [] && !Next(s, l).hasLoaded && !Next(s, l).isLoading && !Next(s, l).error
    ensures (l.Upsert? || l.Replace? || l.Remove?) && Touches(l) ==>
        !Next(s, l).isLoading && !Next(s, l).error && Next(s, l).hasLoaded == s.hasLoaded
    ensures !Touches(l) && !l.Answered? ==> Next(s, l) == s
  {
  }

  lemma {:induction false} OthersRight(projects: seq<Project>, id: Id)
    ensures forall p | p in Others(projects, id) :: p in projects && p.id != id
    ensures forall p | p in projects && p.id != id :: p in Others(projects, id)
  {
    if projects != [] {
      OthersRight(projects[..|projects| - 1], id);
      assert projects == projects[..|projects| - 1] + [projects[|projects| - 1]];
    }
  }

  /** The projects without `id`, as positions: `kept` lists those positions in order, and leaves out none. */
  lemma {:induction false} OthersInOrder(projects: seq<Project>, id: Id) returns (kept: seq<nat>)
    ensures |kept| == |Others(projects, id)|
    ensures forall i | 0 <= i < |kept| :: kept[i] < |projects| && Others(projects, id)[i] == projects[kept[i]]
    ensures forall i, j | 0 <= i < j < |kept| :: kept[i] < kept[j]
    ensures forall n: nat | n < |projects| :: n in kept <==> projects[n].id != id
  {
    kept := [];
    if projects != [] {
      var init, last := projects[..|projects| - 1], |projects| - 1;
      kept := OthersInOrder(init, id);
      if projects[last].id != id {
        kept := kept + [last];
      }
    }
  }

  /**
   What a local change leaves: an upsert puts the project first and drops what stood for it before, a replacement changes
   its entries where they are, a removal drops them; the other projects stay as they are, in their order.
   */
  lemma ChangesRight(s: Store, p: Project) returns (kept: seq<nat>)
    requires p.id != ""
    ensures forall i, j | 0 <= i < j < |kept| :: kept[i] < kept[j]
    ensures forall n: nat | n < |s.projects| :: n in kept <==> s.projects[n].id != p.id
    ensures var upserted, removed := Next(s, Upsert(p)).projects, Next(s, Remove(p.id)).projects;
            && |upserted| == |kept| + 1 && upserted[0] == p && |removed| == |kept|
            && forall i | 0 <= i < |kept| ::
                 kept[i] < |s.projects| && upserted[i + 1] == removed[i] == s.projects[kept[i]]
    ensures var replaced := Next(s, Replace(p)).projects;
            && |replaced| == |s.projects|
            && forall i | 0 <= i < |replaced| :: replaced[i] == if s.projects[i].id == p.id then p else s.projects[i]
  {
    kept := OthersInOrder(s.projects, p.id);
  }

  predicate Distinct(projects: seq<Project>) {
    forall i, j | 0 <= i < j < |projects| :: projects[i].id != projects[j].id
  }

  lemma {:induction false} OthersDistinct(projects: seq<Project>, id: Id)
    requires Distinct(projects)
    ensures Distinct(Others(projects, id))
  {
    if projects != [] {
      var init, last := projects[..|projects| - 1], projects[|projects| - 1];
      OthersDistinct(init, id);
      OthersRight(init, id);
      assert forall i | 0 <= i < |Others(init, id)| :: Others(init, id)[i] in init;
    }
  }

  /** Local changes keep one entry per project. */
  lemma OneEntryEach(s: Store, l: Label)
    requires Distinct(s.projects) && (l.Answered? && l.a.Loaded? ==> Distinct(l.a.projects))
    ensures Distinct(Next(s, l).projects)
  {
    if l.Upsert? {
      OthersDistinct(s.projects, l.p.id);
      OthersRight(s.projects, l.p.id);
      assert forall i | 0 <= i < |Others(s.projects, l.p.id)| :: Others(s.projects, l.p.id)[i] in Others(s.projects, l.p.id);
    } else if l.Remove? {
      OthersDistinct(s.projects, l.id);
    } else if l.Replace? {
      assert forall i | 0 <= i < |s.projects| :: Replaced(s.projects, l.p)[i].id == s.projects[i].id;
    }
  }
}
