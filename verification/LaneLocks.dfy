/**
  Test-lane locks shared by processes through the file system (scripts/test-lane.js), as a
  state machine whose steps are the file operations; steps of different processes interleave.
 */
module LaneLocks {

  type Pid = nat
  type Lane = int

  /** A lock file: missing, created but not yet written, or naming its owner. */
  datatype LockFile = Absent | Unwritten(creator: Pid) | Written(owner: Pid)

  /** Where a process is in acquireLaneLock or releaseLaneLock; `attempt` is the loop variable. */
  datatype Pc =
    | Outside
    | Opening(lane: Lane, attempt: nat)
    | Creating(lane: Lane)
    | Reading(lane: Lane, attempt: nat)     // the file exists
    | Checking(lane: Lane, attempt: nat)    // ... but could not be read
    | Holding(lane: Lane)
    | Unlinking(lane: Lane)

  datatype State = State(files: map<Lane, LockFile>, pcs: map<Pid, Pc>, dead: set<Pid>)

  datatype Action =
    | Begin(p: Pid, lane: Lane)
    | Continue(p: Pid)
    | Release(p: Pid)
    | Die(p: Pid)

  function FileOf(s: State, lane: Lane): LockFile {
    if lane in s.files then s.files[lane] else Absent
  }

  function PcOf(s: State, p: Pid): Pc {
    if p in s.pcs then s.pcs[p] else Outside
  }

  predicate Alive(s: State, p: Pid) { p !in s.dead }

  function SetFile(s: State, lane: Lane, f: LockFile): State { s.(files := s.files[lane := f]) }
  function SetPc(s: State, p: Pid, pc: Pc): State { s.(pcs := s.pcs[p := pc]) }

  /** The next step of a process inside acquireLaneLock or releaseLaneLock. */
  function Advance(s: State, p: Pid): State {
    match PcOf(s, p)
    case Outside => s
    case Opening(lane, attempt) =>
      if attempt >= 2 then SetPc(s, p, Outside)
      else if FileOf(s, lane).Absent? then SetPc(SetFile(s, lane, Unwritten(p)), p, Creating(lane))
      else SetPc(s, p, Reading(lane, attempt))
    case Creating(lane) =>
      SetPc(SetFile(s, lane, Written(p)), p, Holding(lane))
    case Reading(lane, attempt) =>
      var f := FileOf(s, lane);
      if !f.Written? then SetPc(s, p, Checking(lane, attempt))
      else if Alive(s, f.owner) then SetPc(s, p, Outside)
      else SetPc(SetFile(s, lane, Absent), p, Opening(lane, attempt + 1))
    case Checking(lane, attempt) =>
      if FileOf(s, lane).Absent? then SetPc(s, p, Opening(lane, attempt + 1)) else SetPc(s, p, Outside)
    case Holding(lane) => s
    case Unlinking(lane) =>
      SetPc(SetFile(s, lane, Absent), p, Outside)
  }

  /** One action; a dead process does nothing, and none comes back. */
  function Act(s: State, a: Action): State {
    if !Alive(s, a.p) then s
    else
      match a
      case Begin(p, lane) => if PcOf(s, p).Outside? then SetPc(s, p, Opening(lane, 0)) else s
      case Continue(p) => Advance(s, p)
      case Release(p) =>
        var pc := PcOf(s, p);
        if !pc.Holding? then s
        else if FileOf(s, pc.lane) == Written(p) then SetPc(s, p, Unlinking(pc.lane))
        else SetPc(s, p, Outside)
      case Die(p) => s.(dead := s.dead + {p})
  }

  const START := State(map[], map[], {})

  function Run(actions: seq<Action>): State {
    if actions == [] then START else Act(Run(actions[..|actions| - 1]), actions[|actions| - 1])
  }

  /** A live process that has a lane, has created its file, or is about to remove it. */
  ghost predicate Owns(s: State, p: Pid, lane: Lane) {
    Alive(s, p) && (PcOf(s, p) == Creating(lane) || PcOf(s, p) == Holding(lane) || PcOf(s, p) == Unlinking(lane))
  }

  /** p's place in the protocol agrees with the lock files, in both directions. */
  ghost predicate Agrees(s: State, p: Pid, lane: Lane) {
    Alive(s, p) ==>
      && (PcOf(s, p) == Creating(lane) <==> FileOf(s, lane) == Unwritten(p))
      && (PcOf(s, p) == Holding(lane) || PcOf(s, p) == Unlinking(lane) <==> FileOf(s, lane) == Written(p))
  }

  ghost predicate Valid(s: State) {
    forall p, lane :: Agrees(s, p, lane)
  }

  lemma ActKeepsValid(s: State, a: Action)
    requires Valid(s)
    ensures Valid(Act(s, a))
  {
    forall p, lane ensures Agrees(Act(s, a), p, lane) {
      assert Agrees(s, p, lane);
      assert Agrees(s, a.p, lane);
      if PcOf(s, a.p) != Outside {
        assert Agrees(s, a.p, PcOf(s, a.p).lane);
        assert Agrees(s, p, PcOf(s, a.p).lane);
      }
    }
  }

  lemma {:induction false} RunValid(actions: seq<Action>)
    ensures Valid(Run(actions))
  {
    if actions != [] {
      RunValid(actions[..|actions| - 1]);
      ActKeepsValid(Run(actions[..|actions| - 1]), actions[|actions| - 1]);
    }
  }

  /** How often this process has tried to create its lane's lock already. */
  ghost predicate Tries(pc: Pc) {
    match pc
    case Opening(_, attempt) => attempt <= 2
    case Reading(_, attempt) => attempt <= 1
    case Checking(_, attempt) => attempt <= 1
    case _ => true
  }

  /** No process tries more than twice, and the loop's end after that is a failure. */
  lemma {:induction false} TwoAttempts(actions: seq<Action>, p: Pid)
    ensures Tries(PcOf(Run(actions), p))
    ensures Alive(Run(actions), p) && PcOf(Run(actions), p).Opening? && PcOf(Run(actions), p).attempt == 2 ==>
              PcOf(Run(actions + [Continue(p)]), p) == Outside
  {
    if actions != [] {
      TwoAttempts(actions[..|actions| - 1], p);
    }
    assert (actions + [Continue(p)])[..|actions|] == actions;
  }

  /** In every interleaving at most one live process has a lane. */
  lemma MutualExclusion(actions: seq<Action>, p: Pid, q: Pid, lane: Lane)
    requires Owns(Run(actions), p, lane) && Owns(Run(actions), q, lane)
    ensures p == q
  {
    RunValid(actions);
    assert Agrees(Run(actions), p, lane) && Agrees(Run(actions), q, lane);
  }

  /**
    Nobody removes or replaces the lock of another live process, not even while its file is
    created but unwritten; so the owner loses it only by its own steps.
   */
  lemma OthersLeaveLock(actions: seq<Action>, a: Action, q: Pid, lane: Lane)
    requires Owns(Run(actions), q, lane) && a.p != q
    ensures FileOf(Run(actions + [a]), lane) == FileOf(Run(actions), lane)
    ensures Owns(Run(actions + [a]), q, lane)
  {
    var s := Run(actions);
    assert (actions + [a])[..|actions|] == actions;
    RunValid(actions);
    assert Agrees(s, q, lane) && Agrees(s, a.p, lane);
  }

  /** The step that ends a release removes the caller's own lock file and no other. */
  lemma ReleaseRemovesOwn(actions: seq<Action>, p: Pid, lane: Lane)
    requires Alive(Run(actions), p) && PcOf(Run(actions), p) == Unlinking(lane)
    ensures FileOf(Run(actions), lane) == Written(p)
    ensures FileOf(Run(actions + [Continue(p)]), lane) == Absent
    ensures forall other :: other != lane ==>
              FileOf(Run(actions + [Continue(p)]), other) == FileOf(Run(actions), other)
  {
    RunValid(actions);
    assert Agrees(Run(actions), p, lane);
    assert (actions + [Continue(p)])[..|actions|] == actions;
  }

  /** A process is alive until it dies, and then never again. */
  lemma {:induction false} AliveUntilDeath(actions: seq<Action>, p: Pid)
    ensures Alive(Run(actions), p) <==> Die(p) !in actions
  {
    if actions != [] {
      var m := |actions| - 1;
      AliveUntilDeath(actions[..m], p);
      assert actions == actions[..m] + [actions[m]];
    }
  }

  /** A lock that vanishes while a process is looking at it is tried for once more, and can be had. */
  lemma VanishedIsRetried(actions: seq<Action>, p: Pid, lane: Lane)
    requires Alive(Run(actions), p) && PcOf(Run(actions), p) == Checking(lane, 0)
    ensures if FileOf(Run(actions), lane) == Absent
            then PcOf(Run(actions + [Continue(p), Continue(p), Continue(p)]), p) == Holding(lane)
            else PcOf(Run(actions + [Continue(p)]), p) == Outside
  {
    RunMore(actions, Continue(p));
    RunMore(actions + [Continue(p)], Continue(p));
    RunMore(actions + [Continue(p), Continue(p)], Continue(p));
    assert actions + [Continue(p)] + [Continue(p)] == actions + [Continue(p), Continue(p)];
    assert actions + [Continue(p), Continue(p)] + [Continue(p)] == actions + [Continue(p), Continue(p), Continue(p)];
  }

  /** A live holder that releases its lane is out of the protocol two steps later, and the lock is gone. */
  lemma ReleaseCompletes(actions: seq<Action>, p: Pid, lane: Lane)
    requires Alive(Run(actions), p) && PcOf(Run(actions), p) == Holding(lane)
    ensures var after := Run(actions + [Release(p), Continue(p)]);
            && PcOf(after, p) == Outside && FileOf(after, lane) == Absent
            && forall other :: other != lane ==> FileOf(after, other) == FileOf(Run(actions), other)
  {
    RunValid(actions);
    assert Agrees(Run(actions), p, lane);
    assert (actions + [Release(p)])[..|actions|] == actions;
    assert (actions + [Release(p), Continue(p)])[..|actions| + 1] == actions + [Release(p)];
  }

  /** A lock file disappears only by its owner's release or because its owner is dead. */
  lemma OnlyOwnerOrDead(actions: seq<Action>, a: Action, lane: Lane)
    requires !FileOf(Run(actions), lane).Absent? && FileOf(Run(actions + [a]), lane).Absent?
    ensures var f := FileOf(Run(actions), lane);
            f.Written? && (f.owner == a.p || !Alive(Run(actions), f.owner))
  {
    RunValid(actions);
    assert Agrees(Run(actions), a.p, lane);
    assert (actions + [a])[..|actions|] == actions;
  }

  // ----- Acquiring -----

  /** The lane's lock can be had: there is none, or its owner is dead. */
  predicate Obtainable(s: State, lane: Lane) {
    match FileOf(s, lane)
    case Absent => true
    case Unwritten(_) => false
    case Written(owner) => !Alive(s, owner)
  }

  /** Continuing a run with steps of p alone. */
  ghost predicate Continues(actions: seq<Action>, more: seq<Action>, p: Pid) {
    actions <= more && forall i :: |actions| <= i < |more| ==> more[i].p == p
  }

  lemma RunMore(actions: seq<Action>, a: Action)
    ensures Run(actions + [a]) == Act(Run(actions), a)
  {
    assert (actions + [a])[..|actions|] == actions;
  }

  /** Between s and s', p moved to `pc` and only `lane`'s file can have changed. */
  ghost predicate OnlyLane(s: State, s': State, p: Pid, pc: Pc, lane: Lane) {
    && s'.dead == s.dead && PcOf(s', p) == pc
    && (forall other :: other != lane ==> FileOf(s', other) == FileOf(s, other))
    && (forall q :: q != p ==> PcOf(s', q) == PcOf(s, q))
  }

  /** p holds the lane now; nothing else has changed. */
  ghost predicate Taken(s: State, s': State, p: Pid, lane: Lane) {
    OnlyLane(s, s', p, Holding(lane), lane) && FileOf(s', lane) == Written(p)
  }

  ghost predicate Untouched(s: State, s': State, p: Pid) {
    && s'.dead == s.dead && PcOf(s', p) == Outside
    && (forall lane :: FileOf(s', lane) == FileOf(s, lane))
    && (forall q :: q != p ==> PcOf(s', q) == PcOf(s, q))
  }

  /** Where p can be on its way to `lane` when nobody interferes, and what has happened to the file. */
  ghost predicate Acquiring(s: State, s': State, p: Pid, lane: Lane) {
    var pc, file := PcOf(s', p), FileOf(s', lane);
    && OnlyLane(s, s', p, pc, lane)
    && match pc
       case Opening(on, attempt) => on == lane && attempt <= 1 &&
         if attempt == 0 then file == FileOf(s, lane) else file.Absent? && Obtainable(s, lane)
       case Creating(on) => on == lane && file == Unwritten(p) && Obtainable(s, lane)
       case Reading(on, attempt) => on == lane && attempt == 0 && file == FileOf(s, lane) && !file.Absent?
       case Checking(on, attempt) => on == lane && attempt == 0 && file == FileOf(s, lane) && file.Unwritten?
       case Holding(on) => on == lane && file == Written(p) && Obtainable(s, lane)
       case Outside => file == FileOf(s, lane) && !Obtainable(s, lane)
       case Unlinking(_) => false
  }

  function StepsLeft(pc: Pc): nat {
    match pc
    case Opening(_, attempt) => if attempt == 0 then 5 else 3
    case Reading(_, _) => 4
    case Creating(_) => 2
    case Checking(_, _) => 1
    case _ => 0
  }

  /** The next step stays on the way and gets closer to its end. */
  lemma StepOn(s: State, s': State, p: Pid, lane: Lane)
    requires Alive(s, p) && Acquiring(s, s', p, lane)
    requires !PcOf(s', p).Outside? && !PcOf(s', p).Holding?
    ensures Acquiring(s, Act(s', Continue(p)), p, lane)
    ensures StepsLeft(PcOf(Act(s', Continue(p)), p)) < StepsLeft(PcOf(s', p))
  {
    assert OnlyLane(s, s', p, PcOf(s', p), lane);
  }

  /** Undisturbed, acquireLaneLock gets the lane exactly when its lock can be had, and otherwise changes nothing. */
  method AcquireLane(s: State, p: Pid, lane: Lane, ghost actions: seq<Action>)
    returns (s': State, acquired: bool, ghost more: seq<Action>)
    requires s == Run(actions) && Alive(s, p) && PcOf(s, p) == Outside
    ensures acquired <==> Obtainable(s, lane)
    ensures if acquired then Taken(s, s', p, lane) else Untouched(s, s', p)
    ensures s' == Run(more) && Continues(actions, more, p)
  {
    s' := Act(s, Begin(p, lane));
    more := actions + [Begin(p, lane)];
    RunMore(actions, Begin(p, lane));
    while !PcOf(s', p).Outside? && !PcOf(s', p).Holding?
      invariant Acquiring(s, s', p, lane)
      invariant s' == Run(more) && Continues(actions, more, p)
      decreases StepsLeft(PcOf(s', p))
    {
      RunMore(more, Continue(p));
      StepOn(s, s', p, lane);
      s' := Act(s', Continue(p));
      more := more + [Continue(p)];
    }
    acquired := PcOf(s', p).Holding?;
  }

  datatype Request = Auto | Named(lane: Lane)
  datatype Choice = Acquired(lane: Lane) | Unavailable | NotALane

  const MAX_LOCAL_LANES := 4

  /** An automatic request may take the lane: all its ports are free and its lock can be had. */
  predicate Usable(s: State, free: int -> bool, lane: Lane) {
    (forall field: PortField :: free(Port(field, lane))) && Obtainable(s, lane)
  }

  /** What acquireSelectedLaneLock answers when nobody interferes. */
  ghost predicate Chosen(s: State, request: Request, free: int -> bool, choice: Choice) {
    match request
    case Named(lane) =>
      choice == if !(1 <= lane <= 4) then NotALane
                else if Obtainable(s, lane) then Acquired(lane) else Unavailable
    case Auto =>
      match choice
      case Acquired(lane) =>
        && 1 <= lane <= 4 && Usable(s, free, lane)
        && forall lower :: 1 <= lower < lane ==> !Usable(s, free, lower)
      case Unavailable => forall lane :: 1 <= lane <= 4 ==> !Usable(s, free, lane)
      case NotALane => false
  }

  /**
    A named lane is acquired whether or not its ports are free; an automatic request takes the
    lowest usable lane and leaves every other lane's lock as it was.
   */
  method AcquireSelectedLane(s: State, p: Pid, request: Request, free: int -> bool, ghost actions: seq<Action>)
    returns (s': State, choice: Choice, ghost more: seq<Action>)
    requires s == Run(actions) && Alive(s, p) && PcOf(s, p) == Outside
    ensures Chosen(s, request, free, choice)
    ensures if choice.Acquired? then Taken(s, s', p, choice.lane) else Untouched(s, s', p)
    ensures s' == Run(more) && Continues(actions, more, p)
  {
    s', more := s, actions;
    var lane, last := 1, MAX_LOCAL_LANES;
    if request.Named? {
      if !(1 <= request.lane <= MAX_LOCAL_LANES) {
        return s', NotALane, more;
      }
      lane, last := request.lane, request.lane;
    }
    while lane <= last
      invariant Untouched(s, s', p) && s' == Run(more) && Continues(actions, more, p)
      invariant request.Named? ==>
                  last == request.lane && 1 <= last <= MAX_LOCAL_LANES && last <= lane <= last + 1 &&
                  (lane == last + 1 ==> !Obtainable(s, last))
      invariant request.Auto? ==> last == MAX_LOCAL_LANES && 1 <= lane <= last + 1
      invariant request.Auto? ==> forall lower :: 1 <= lower < lane ==> !Usable(s, free, lower)
    {
      assert Obtainable(s', lane) == Obtainable(s, lane);
      if request.Named? || forall field: PortField :: free(Port(field, lane)) {
        var acquired: bool;
        s', acquired, more := AcquireLane(s', p, lane, more);
        assert Continues(actions, more, p);
        if acquired {
          return s', Acquired(lane), more;
        }
      }
      lane := lane + 1;
    }
    choice := Unavailable;
  }

  // ----- Ports -----

  datatype PortField = Dashboard | Api | Mcp | McpGateway | GpuMetrics | Coord | DashboardDev

  const DEFAULT_DASHBOARD_PORT := 3456
  const DEFAULT_MCP_GATEWAY_PORT := 3459
  const DEFAULT_GPU_PORT := 9394
  const DEFAULT_COORD_PORT := 9395
  const DEFAULT_DASHBOARD_DEV_PORT := 5173

  function Port(field: PortField, lane: Lane): int {
    var portOffset := (lane - 1) * 100;
    match field
    case Dashboard => DEFAULT_DASHBOARD_PORT + portOffset
    case Api => DEFAULT_DASHBOARD_PORT + portOffset + 1
    case Mcp => DEFAULT_DASHBOARD_PORT + portOffset + 2
    case McpGateway => DEFAULT_MCP_GATEWAY_PORT + portOffset
    case GpuMetrics => DEFAULT_GPU_PORT + portOffset
    case Coord => DEFAULT_COORD_PORT + portOffset
    case DashboardDev => DEFAULT_DASHBOARD_DEV_PORT + portOffset
  }

  /** The ports of lane 1, and a hundred more for each further lane. */
  lemma PortNumbers(lane: Lane)
    ensures Port(Dashboard, 1) == 3456 && Port(Api, 1) == 3457 && Port(Mcp, 1) == 3458 && Port(McpGateway, 1) == 3459
    ensures Port(GpuMetrics, 1) == 9394 && Port(Coord, 1) == 9395 && Port(DashboardDev, 1) == 5173
    ensures forall field :: Port(field, lane + 1) == Port(field, lane) + 100
  {}

  /** Whatever the lane numbers, two ports coincide only for the same lane and the same field. */
  lemma PortsDistinct(f: PortField, lane: Lane, g: PortField, other: Lane)
    ensures Port(f, lane) == Port(g, other) <==> f == g && lane == other
  {
    assert Port(f, lane) == Port(f, 1) + 100 * (lane - 1) && Port(g, other) == Port(g, 1) + 100 * (other - 1);
    if Port(f, lane) == Port(g, other) {
      assert Port(f, 1) - Port(g, 1) == 100 * (other - lane);
      assert f == g;
    }
  }
}
