/** The launch router. A persisted flag, stored under the key `"isFirstLaunch"`,
    is true once onboarding has finished (despite its name); until then every launch
    opens the first onboarding screen. Both onboarding screens share one view model,
    created on first use. */
module Launch {
  import opened Basics
  import opened Models
  import opened Authorization

  const FirstLaunchKey: string := "isFirstLaunch"

  datatype Screen = NoScreen | AuthFirst | AuthSecond | MainTabs

  /** `flag` is the persisted value under `FirstLaunchKey` (false when never written);
      `vmUser` is the id of the user the shared view model set up, once it exists;
      `store` is the persisted user and core records. */
  datatype Coordinator = Coordinator(flag: bool, root: Screen, vmUser: Option<int>, store: Store)

  /** A process start: persisted values survive, the window and view model do not. */
  function Launched(flag: bool, store: Store): (c: Coordinator)
    ensures c.flag == flag && c.store == store && c.root == NoScreen && c.vmUser.None?
  {
    Coordinator(flag, NoScreen, None, store)
  }

  /** Accessing the lazy `authViewModel`: created, wiping the store, on first access
      only. `newId` is the id the created user would receive. */
  function WithViewModel(c: Coordinator, newId: int): (r: Coordinator)
    ensures r.flag == c.flag && r.root == c.root && r.vmUser.Some?
    ensures c.vmUser.Some? ==> r == c
    ensures c.vmUser.None? ==> r.vmUser == Some(newId) && r.store == Init(c.store, newId).store
  {
    if c.vmUser.Some? then c
    else c.(vmUser := Some(newId), store := Init(c.store, newId).store)
  }

  datatype Event =
    | Dispatch(newId: int)      // dispatchStartScreen
    | ShowSecond(newId: int)    // showAutorizationSecondView
    | Finish                    // finishAuthorization
    | EditProfile(e: Edit)      // a setter called from an onboarding screen

  function Step(c: Coordinator, ev: Event): (r: Coordinator)
    ensures r.flag == (c.flag || ev.Finish?)
  {
    match ev
    case Dispatch(id) =>
      if c.flag then c.(root := MainTabs) else WithViewModel(c, id).(root := AuthFirst)
    case ShowSecond(id) => WithViewModel(c, id).(root := AuthSecond)
    case Finish => c.(flag := true, root := MainTabs)
    case EditProfile(e) =>
      match c.vmUser
      case None => c
      case Some(u) => c.(store := Apply(AuthModel(c.store, u), e).store)
  }

  function Run(c: Coordinator, evs: seq<Event>): Coordinator
    decreases |evs|
  {
    if |evs| == 0 then c else Run(Step(c, evs[0]), evs[1..])
  }

  /** `dispatchStartScreen`: the first onboarding screen until onboarding has
      finished, the main tabs afterwards. */
  lemma DispatchChoosesScreen(c: Coordinator, id: int)
    ensures Step(c, Dispatch(id)).root == if c.flag then MainTabs else AuthFirst
  {
  }

  /** A launch after onboarding does not touch the stored users. */
  lemma ReturningLaunchKeepsStore(c: Coordinator, id: int)
    requires c.flag
    ensures Step(c, Dispatch(id)).store == c.store
  {
  }

  /** `finishAuthorization` records the flag and shows the main tabs. */
  lemma FinishShowsMain(c: Coordinator)
    ensures Step(c, Finish).flag && Step(c, Finish).root == MainTabs
  {
  }

  /** The flag is never cleared. */
  lemma {:induction false} FlagMonotone(c: Coordinator, evs: seq<Event>)
    requires c.flag
    ensures Run(c, evs).flag
    decreases |evs|
  {
    if |evs| > 0 {
      FlagMonotone(Step(c, evs[0]), evs[1..]);
    }
  }

  /** Once onboarding has finished, every later launch and dispatch opens the main tabs. */
  lemma FinishedMeansMainForever(c: Coordinator, evs: seq<Event>, store: Store, id: int)
    ensures var after := Run(Step(c, Finish), evs);
      Step(Launched(after.flag, store), Dispatch(id)).root == MainTabs
  {
    FlagMonotone(Step(c, Finish), evs);
  }

  /** Once created, the view model is never replaced: every event but a relaunch keeps it. */
  lemma {:induction false} ViewModelCreatedOnce(c: Coordinator, evs: seq<Event>)
    requires c.vmUser.Some?
    ensures Run(c, evs).vmUser == c.vmUser
    decreases |evs|
  {
    if |evs| > 0 {
      ViewModelCreatedOnce(Step(c, evs[0]), evs[1..]);
    }
  }

  /** Both onboarding screens edit the same user: a name entered on the first screen
      is still there on the second, whatever id the second access would have used. */
  lemma SecondScreenSharesViewModel(flag: bool, store: Store, a: int, b: int, name: string)
    requires !flag
    ensures var c := Run(Launched(flag, store), [Dispatch(a), EditProfile(SetName(name)), ShowSecond(b)]);
      c.root == AuthSecond && c.vmUser == Some(a)
      && c.store.users == [FreshUser(a).(name := name)]
  {
    var evs := [Dispatch(a), EditProfile(SetName(name)), ShowSecond(b)];
    var c0 := Launched(flag, store);
    var c1 := Step(c0, evs[0]);
    var c2 := Step(c1, evs[1]);
    var c3 := Step(c2, evs[2]);
    assert c1.store.users == [FreshUser(a)];
    assert c2.store.users == [FreshUser(a).(name := name)];
    assert evs[1..][1..][1..] == [];
    assert Run(c2, evs[1..][1..]) == Run(c3, []) == c3;
    assert Run(c1, evs[1..]) == Run(c2, evs[1..][1..]);
  }

  /** Quitting before onboarding finishes loses what was entered: the next launch
      creates the view model again and wipes the store. */
  lemma UnfinishedOnboardingRestarts(c: Coordinator, id: int)
    requires !c.flag
    ensures Step(Launched(c.flag, c.store), Dispatch(id)).store.users == [FreshUser(id)]
  {
  }
}
