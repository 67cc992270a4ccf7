/** The VXLAN lifecycle: commands acting on the devices of hosts, activities that
    can break off anywhere and be retried, and what the workflow leaves behind. */
module Vxlan {

  import opened Wrappers

  const VXLAN_NAME: string := "bmtvxlan0"

  datatype Device = Device(vni: nat, iface: string, remote: string, addresses: set<nat>, up: bool)

  /** A host's devices by name. */
  type Devices = map<string, Device>

  /** All hosts by address; a host without an entry has no devices. */
  type Fleet = map<string, Devices>

  datatype Machine = Machine(host: string, iface: string)

  function DevicesOf(f: Fleet, host: string): Devices {
    if host in f then f[host] else map[]
  }

  // ---- Commands ------------------------------------------------------------------

  datatype Command =
    | Modprobe
    | LinkDelOrTrue                                       // `ip link del ... ; true`
    | LinkAdd(vni: nat, iface: string, remote: string)
    | AddrAdd(index: nat)
    | LinkUp
    | LinkDel

  /** The environment's choice for one command: carry it out (if it can be) or
      refuse it, with an error text that may say "already exists"; or lose the
      connection, with or without the effect. */
  datatype Choice = Answer(willing: bool, says: bool) | Lose(tookEffect: bool)

  datatype Reply = Ok | Error(alreadyExists: bool) | Lost

  predicate VniTaken(d: Devices, vni: nat) {
    exists n | n in d :: d[n].vni == vni
  }

  /** The command can succeed here. */
  predicate Applicable(d: Devices, c: Command) {
    match c
    case Modprobe => true
    case LinkAdd(vni, _, _) => VXLAN_NAME !in d && !VniTaken(d, vni)
    case AddrAdd(i) => VXLAN_NAME in d && i !in d[VXLAN_NAME].addresses
    case _ => VXLAN_NAME in d
  }

  /** What the command asks for is there already, so an error may say so. */
  predicate Conflicts(d: Devices, c: Command) {
    match c
    case LinkAdd(vni, _, _) => VXLAN_NAME in d || VniTaken(d, vni)
    case AddrAdd(i) => VXLAN_NAME in d && i in d[VXLAN_NAME].addresses
    case _ => false
  }

  function Effect(d: Devices, c: Command): Devices
    requires Applicable(d, c)
  {
    match c
    case Modprobe => d
    case LinkDelOrTrue => d - {VXLAN_NAME}
    case LinkDel => d - {VXLAN_NAME}
    case LinkAdd(vni, iface, remote) => d[VXLAN_NAME := Device(vni, iface, remote, {}, false)]
    case AddrAdd(i) => d[VXLAN_NAME := d[VXLAN_NAME].(addresses := d[VXLAN_NAME].addresses + {i})]
    case LinkUp => d[VXLAN_NAME := d[VXLAN_NAME].(up := true)]
  }

  function Exec(d: Devices, c: Command, choice: Choice): (Devices, Reply) {
    match choice
    case Lose(took) => (if took && Applicable(d, c) then Effect(d, c) else d, Lost)
    case Answer(willing, says) =>
      if willing && Applicable(d, c) then (Effect(d, c), Ok)
      else if c == LinkDelOrTrue then (d, Ok)
      else (d, Error(says && Conflicts(d, c)))
  }

  // ---- Activities ------------------------------------------------------------------

  /** How an activity attempt ends: it returns, fails for good, or fails in a way
      that is retried. */
  datatype Ending = Done | Rejected | Broken

  /** The environment's choices for one SSH session. */
  datatype Session = Session(opens: bool, choices: seq<Choice>)

  function BringUpCommands(m: Machine, index: nat, peer: string, vni: nat): seq<Command> {
    [Modprobe, LinkDelOrTrue, LinkAdd(vni, m.iface, peer), AddrAdd(index), LinkUp]
  }

  /** The commands from position `k` on, until one is lost or fails with anything
      but "already exists". */
  function RunFrom(d: Devices, cs: seq<Command>, choices: seq<Choice>, k: nat): (Devices, Ending)
    requires k <= |cs| <= |choices|
    decreases |cs| - k
  {
    if k == |cs| then (d, Done)
    else
      var (d', reply) := Exec(d, cs[k], choices[k]);
      match reply
      case Lost => (d', Broken)
      case Error(false) => (d', Rejected)
      case _ => RunFrom(d', cs, choices, k + 1)
  }

  predicate Enough(s: Session) { |s.choices| == 5 }

  function BringUp(d: Devices, m: Machine, index: nat, peer: string, vni: nat, s: Session): (Devices, Ending)
    requires Enough(s)
  {
    if !s.opens then (d, Broken) else RunFrom(d, BringUpCommands(m, index, peer, vni), s.choices, 0)
  }

  function Setup(f: Fleet, a: Machine, b: Machine, vni: nat, sa: Session, sb: Session): (Fleet, Ending)
    requires Enough(sa) && Enough(sb)
  {
    var (da, ea) := BringUp(DevicesOf(f, a.host), a, 1, b.host, vni, sa);
    var f' := f[a.host := da];
    if ea != Done then (f', ea)
    else
      var (db, eb) := BringUp(DevicesOf(f', b.host), b, 2, a.host, vni, sb);
      (f'[b.host := db], eb)
  }

  /** `ip link del` on one host; its exit status is only recorded. */
  function TakeDown(d: Devices, s: Session): (Devices, Ending)
    requires Enough(s)
  {
    if !s.opens then (d, Broken)
    else
      var (d', reply) := Exec(d, LinkDel, s.choices[0]);
      (d', if reply == Lost then Broken else Done)
  }

  function Teardown(f: Fleet, a: Machine, b: Machine, sa: Session, sb: Session): (Fleet, Ending)
    requires Enough(sa) && Enough(sb)
  {
    var (da, ea) := TakeDown(DevicesOf(f, a.host), sa);
    var f' := f[a.host := da];
    if ea != Done then (f', ea)
    else
      var (db, eb) := TakeDown(DevicesOf(f', b.host), sb);
      (f'[b.host := db], eb)
  }

  /** The sessions of one attempt on both hosts. */
  type Attempt = s: (Session, Session) | Enough(s.0) && Enough(s.1)
    witness (Session(false, [Lose(false), Lose(false), Lose(false), Lose(false), Lose(false)]),
             Session(false, [Lose(false), Lose(false), Lose(false), Lose(false), Lose(false)]))

  /** Attempts in turn until one returns or fails for good; false means raised. */
  function SetupRetried(f: Fleet, a: Machine, b: Machine, vni: nat, attempts: seq<Attempt>): (Fleet, bool)
    decreases |attempts|
  {
    if attempts == [] then (f, false)
    else
      var (f', e) := Setup(f, a, b, vni, attempts[0].0, attempts[0].1);
      match e
      case Done => (f', true)
      case Rejected => (f', false)
      case Broken => SetupRetried(f', a, b, vni, attempts[1..])
  }

  function TeardownRetried(f: Fleet, a: Machine, b: Machine, attempts: seq<Attempt>): (Fleet, bool)
    decreases |attempts|
  {
    if attempts == [] then (f, false)
    else
      var (f', e) := Teardown(f, a, b, attempts[0].0, attempts[0].1);
      if e == Done then (f', true) else TeardownRetried(f', a, b, attempts[1..])
  }

  // ---- Retrying ---------------------------------------------------------------------------

  /** The fleet when attempt `k` of a setup begins, if all before it were made. */
  function SetupBegins(f: Fleet, a: Machine, b: Machine, vni: nat, attempts: seq<Attempt>, k: nat): Fleet
    requires k <= |attempts|
  {
    if k == 0 then f
    else Setup(SetupBegins(f, a, b, vni, attempts, k - 1), a, b, vni, attempts[k - 1].0, attempts[k - 1].1).0
  }

  /** How attempt `k` of a setup ends. */
  function SetupEnds(f: Fleet, a: Machine, b: Machine, vni: nat, attempts: seq<Attempt>, k: nat): Ending
    requires k < |attempts|
  {
    Setup(SetupBegins(f, a, b, vni, attempts, k), a, b, vni, attempts[k].0, attempts[k].1).1
  }

  /** Attempt `k` is reached, and is the first that does not break off. */
  predicate SetupSettlesAt(f: Fleet, a: Machine, b: Machine, vni: nat, attempts: seq<Attempt>, k: nat) {
    && k < |attempts| && SetupEnds(f, a, b, vni, attempts, k) != Broken
    && forall j | 0 <= j < k :: SetupEnds(f, a, b, vni, attempts, j) == Broken
  }

  /** One turn of the retry. */
  lemma SetupTurn(f: Fleet, a: Machine, b: Machine, vni: nat, attempts: seq<Attempt>, k: nat)
    requires k < |attempts|
    ensures var (g, e) := Setup(f, a, b, vni, attempts[k].0, attempts[k].1);
            SetupRetried(f, a, b, vni, attempts[k..]) ==
            if e == Broken then SetupRetried(g, a, b, vni, attempts[k + 1..]) else (g, e == Done)
  {
    assert attempts[k..][0] == attempts[k] && attempts[k..][1..] == attempts[k + 1..];
  }

  /** While attempts break off, the retry goes on from where the last one left. */
  lemma {:induction false} SetupGoesOn(f: Fleet, a: Machine, b: Machine, vni: nat, attempts: seq<Attempt>, k: nat)
    requires k <= |attempts| && forall j | 0 <= j < k :: SetupEnds(f, a, b, vni, attempts, j) == Broken
    ensures SetupRetried(f, a, b, vni, attempts) ==
            SetupRetried(SetupBegins(f, a, b, vni, attempts, k), a, b, vni, attempts[k..])
  {
    if k == 0 {
      assert attempts[0..] == attempts;
    } else {
      SetupGoesOn(f, a, b, vni, attempts, k - 1);
      assert SetupEnds(f, a, b, vni, attempts, k - 1) == Broken;
      SetupTurn(SetupBegins(f, a, b, vni, attempts, k - 1), a, b, vni, attempts, k - 1);
    }
  }

  /** The first attempt that does not break off decides a retried setup, for good or
      ill, whatever attempts would follow. */
  lemma SetupStopsAt(f: Fleet, a: Machine, b: Machine, vni: nat, attempts: seq<Attempt>, k: nat)
    requires SetupSettlesAt(f, a, b, vni, attempts, k)
    ensures SetupRetried(f, a, b, vni, attempts) ==
            (SetupBegins(f, a, b, vni, attempts, k + 1), SetupEnds(f, a, b, vni, attempts, k) == Done)
  {
    SetupGoesOn(f, a, b, vni, attempts, k);
    SetupTurn(SetupBegins(f, a, b, vni, attempts, k), a, b, vni, attempts, k);
  }

  /** If every attempt breaks off, all are made, and the setup raises. */
  lemma SetupGivesUp(f: Fleet, a: Machine, b: Machine, vni: nat, attempts: seq<Attempt>)
    requires forall j | 0 <= j < |attempts| :: SetupEnds(f, a, b, vni, attempts, j) == Broken
    ensures SetupRetried(f, a, b, vni, attempts) == (SetupBegins(f, a, b, vni, attempts, |attempts|), false)
  {
    SetupGoesOn(f, a, b, vni, attempts, |attempts|);
    assert attempts[|attempts|..] == [];
  }

  /** Some attempt is done, and all before it broke off without being rejected. */
  predicate SetupSucceeds(f: Fleet, a: Machine, b: Machine, vni: nat, attempts: seq<Attempt>) {
    exists k | 0 <= k < |attempts| ::
      SetupSettlesAt(f, a, b, vni, attempts, k) && SetupEnds(f, a, b, vni, attempts, k) == Done
  }

  lemma FirstSettled(f: Fleet, a: Machine, b: Machine, vni: nat, attempts: seq<Attempt>) returns (k: nat)
    ensures k <= |attempts| && forall j | 0 <= j < k :: SetupEnds(f, a, b, vni, attempts, j) == Broken
    ensures k < |attempts| ==> SetupSettlesAt(f, a, b, vni, attempts, k)
  {
    k := 0;
    while k < |attempts| && SetupEnds(f, a, b, vni, attempts, k) == Broken
      invariant k <= |attempts| && forall j | 0 <= j < k :: SetupEnds(f, a, b, vni, attempts, j) == Broken
    {
      k := k + 1;
    }
  }

  /** A retried setup returns exactly when some attempt is done before any is
      rejected. */
  lemma SetupReturnsIff(f: Fleet, a: Machine, b: Machine, vni: nat, attempts: seq<Attempt>)
    ensures SetupRetried(f, a, b, vni, attempts).1 <==> SetupSucceeds(f, a, b, vni, attempts)
  {
    var k := FirstSettled(f, a, b, vni, attempts);
    if k < |attempts| {
      SetupStopsAt(f, a, b, vni, attempts, k);
    } else {
      SetupGivesUp(f, a, b, vni, attempts);
    }
  }

  function TeardownBegins(f: Fleet, a: Machine, b: Machine, attempts: seq<Attempt>, k: nat): Fleet
    requires k <= |attempts|
  {
    if k == 0 then f
    else Teardown(TeardownBegins(f, a, b, attempts, k - 1), a, b, attempts[k - 1].0, attempts[k - 1].1).0
  }

  function TeardownEnds(f: Fleet, a: Machine, b: Machine, attempts: seq<Attempt>, k: nat): Ending
    requires k < |attempts|
  {
    Teardown(TeardownBegins(f, a, b, attempts, k), a, b, attempts[k].0, attempts[k].1).1
  }

  lemma TeardownTurn(f: Fleet, a: Machine, b: Machine, attempts: seq<Attempt>, k: nat)
    requires k < |attempts|
    ensures var (g, e) := Teardown(f, a, b, attempts[k].0, attempts[k].1);
            TeardownRetried(f, a, b, attempts[k..]) ==
            if e == Done then (g, true) else TeardownRetried(g, a, b, attempts[k + 1..])
  {
    assert attempts[k..][0] == attempts[k] && attempts[k..][1..] == attempts[k + 1..];
  }

  lemma {:induction false} TeardownGoesOn(f: Fleet, a: Machine, b: Machine, attempts: seq<Attempt>, k: nat)
    requires k <= |attempts| && forall j | 0 <= j < k :: TeardownEnds(f, a, b, attempts, j) != Done
    ensures TeardownRetried(f, a, b, attempts) ==
            TeardownRetried(TeardownBegins(f, a, b, attempts, k), a, b, attempts[k..])
  {
    if k == 0 {
      assert attempts[0..] == attempts;
    } else {
      TeardownGoesOn(f, a, b, attempts, k - 1);
      assert TeardownEnds(f, a, b, attempts, k - 1) != Done;
      TeardownTurn(TeardownBegins(f, a, b, attempts, k - 1), a, b, attempts, k - 1);
    }
  }

  /** Some attempt of a teardown is done. */
  predicate TeardownSucceeds(f: Fleet, a: Machine, b: Machine, attempts: seq<Attempt>) {
    exists k | 0 <= k < |attempts| :: TeardownEnds(f, a, b, attempts, k) == Done
  }

  lemma FirstDone(f: Fleet, a: Machine, b: Machine, attempts: seq<Attempt>) returns (k: nat)
    ensures k <= |attempts| && forall j | 0 <= j < k :: TeardownEnds(f, a, b, attempts, j) != Done
    ensures k < |attempts| ==> TeardownEnds(f, a, b, attempts, k) == Done
  {
    k := 0;
    while k < |attempts| && TeardownEnds(f, a, b, attempts, k) != Done
      invariant k <= |attempts| && forall j | 0 <= j < k :: TeardownEnds(f, a, b, attempts, j) != Done
    {
      k := k + 1;
    }
  }

  /** A retried teardown goes on until an attempt is done, and raises only when none
      of its attempts is. */
  lemma TeardownReturnsIff(f: Fleet, a: Machine, b: Machine, attempts: seq<Attempt>)
    ensures TeardownRetried(f, a, b, attempts).1 <==> TeardownSucceeds(f, a, b, attempts)
  {
    var k := FirstDone(f, a, b, attempts);
    TeardownGoesOn(f, a, b, attempts, k);
    if k < |attempts| {
      TeardownTurn(TeardownBegins(f, a, b, attempts, k), a, b, attempts, k);
    } else {
      assert attempts[k..] == [];
    }
  }

  // ---- Putting the tunnel up --------------------------------------------------------------

  function Planned(m: Machine, index: nat, peer: string, vni: nat): Device {
    Device(vni, m.iface, peer, {index}, true)
  }

  /** What address assignment and `ip link set up` make of a device found there. */
  function Extended(stale: Device, index: nat): Device {
    stale.(addresses := stale.addresses + {index}, up := true)
  }

  /** An answered delete removed the device, or there was nothing to remove. */
  predicate DeleteTook(d: Devices, choice: Choice) {
    VXLAN_NAME in d && choice.Answer? ==> choice.willing
  }

  /** A bring-up that returns has had every command answered and none rejected. */
  lemma BringUpRuns(d: Devices, m: Machine, index: nat, peer: string, vni: nat, s: Session)
    requires Enough(s) && BringUp(d, m, index, peer, vni, s).1 == Done
    ensures var ch := s.choices;
            var d1 := Exec(d, LinkDelOrTrue, ch[1]).0;
            var d2 := Exec(d1, LinkAdd(vni, m.iface, peer), ch[2]).0;
            var d3 := Exec(d2, AddrAdd(index), ch[3]).0;
            && ch[1].Answer? && Exec(d1, LinkAdd(vni, m.iface, peer), ch[2]).1 in {Ok, Error(true)}
            && Exec(d2, AddrAdd(index), ch[3]).1 in {Ok, Error(true)}
            && VXLAN_NAME in d3 && BringUp(d, m, index, peer, vni, s).0 == Effect(d3, LinkUp)
  {
    var cs, ch := BringUpCommands(m, index, peer, vni), s.choices;
    var d1 := Exec(d, LinkDelOrTrue, ch[1]).0;
    assert ch[0].Answer? && RunFrom(d, cs, ch, 0) == RunFrom(d, cs, ch, 1);
    assert ch[1].Answer? && RunFrom(d, cs, ch, 1) == RunFrom(d1, cs, ch, 2);
    var d2 := Exec(d1, cs[2], ch[2]).0;
    assert RunFrom(d1, cs, ch, 2) == RunFrom(d2, cs, ch, 3);
    var d3 := Exec(d2, cs[3], ch[3]).0;
    assert RunFrom(d2, cs, ch, 3) == RunFrom(d3, cs, ch, 4);
    assert RunFrom(d3, cs, ch, 4) == (Effect(d3, LinkUp), Done);
  }

  /** What a bring-up that returns leaves, whatever was there before: the planned
      device, or the stale one with the address added if its deletion failed
      behind `; true`. All other devices are untouched. */
  lemma BringUpLeaves(d: Devices, m: Machine, index: nat, peer: string, vni: nat, s: Session)
    requires Enough(s) && BringUp(d, m, index, peer, vni, s).1 == Done
    ensures BringUp(d, m, index, peer, vni, s).0 ==
            if DeleteTook(d, s.choices[1]) then d[VXLAN_NAME := Planned(m, index, peer, vni)]
            else d[VXLAN_NAME := Extended(d[VXLAN_NAME], index)]
  {
    BringUpRuns(d, m, index, peer, vni, s);
    var d1 := Exec(d, LinkDelOrTrue, s.choices[1]).0;
    var d2 := Exec(d1, LinkAdd(vni, m.iface, peer), s.choices[2]).0;
    var d3 := Exec(d2, AddrAdd(index), s.choices[3]).0;
    if DeleteTook(d, s.choices[1]) {
      assert VXLAN_NAME !in d1;
      assert d3[VXLAN_NAME].addresses == {} + {index} == {index};
      assert Effect(d3, LinkUp) == d[VXLAN_NAME := Planned(m, index, peer, vni)];
    } else {
      assert d2 == d1 == d;
      assert d3[VXLAN_NAME].addresses == d[VXLAN_NAME].addresses + {index};
      assert Effect(d3, LinkUp) == d[VXLAN_NAME := Extended(d[VXLAN_NAME], index)];
    }
  }

  /** Both hosts hold exactly this plan's ends of the tunnel. */
  predicate TunnelUp(f: Fleet, a: Machine, b: Machine, vni: nat) {
    && VXLAN_NAME in DevicesOf(f, a.host) && DevicesOf(f, a.host)[VXLAN_NAME] == Planned(a, 1, b.host, vni)
    && VXLAN_NAME in DevicesOf(f, b.host) && DevicesOf(f, b.host)[VXLAN_NAME] == Planned(b, 2, a.host, vni)
  }

  /** The old device went, or is what the plan wants anyway. */
  predicate EndRenewed(d: Devices, m: Machine, index: nat, peer: string, vni: nat, choice: Choice) {
    DeleteTook(d, choice) || Extended(d[VXLAN_NAME], index) == Planned(m, index, peer, vni)
  }

  predicate EndsRenewed(f: Fleet, a: Machine, b: Machine, vni: nat, t: Attempt) {
    && EndRenewed(DevicesOf(f, a.host), a, 1, b.host, vni, t.0.choices[1])
    && EndRenewed(DevicesOf(f, b.host), b, 2, a.host, vni, t.1.choices[1])
  }

  /** A setup attempt that returns has put the plan's tunnel up, whatever the hosts
      held before, exactly when the hosts are different and neither end kept an old
      device that differs from the plan. */
  lemma SetupPutsTunnelUp(f: Fleet, a: Machine, b: Machine, vni: nat, t: Attempt)
    requires Setup(f, a, b, vni, t.0, t.1).1 == Done
    ensures TunnelUp(Setup(f, a, b, vni, t.0, t.1).0, a, b, vni) <==>
            a.host != b.host && EndsRenewed(f, a, b, vni, t)
  {
    var da := BringUp(DevicesOf(f, a.host), a, 1, b.host, vni, t.0).0;
    BringUpLeaves(DevicesOf(f, a.host), a, 1, b.host, vni, t.0);
    BringUpLeaves(DevicesOf(f[a.host := da], b.host), b, 2, a.host, vni, t.1);
    if a.host == b.host {
      assert {1} != {2} by { assert 1 in {1} && 1 !in {2}; }
    }
  }

  /** The fleet and the attempt with which a retried setup returns. */
  function SetupDecider(f: Fleet, a: Machine, b: Machine, vni: nat, attempts: seq<Attempt>): (d: (Fleet, Attempt))
    requires SetupRetried(f, a, b, vni, attempts).1
    ensures d.1 in attempts
    ensures Setup(d.0, a, b, vni, d.1.0, d.1.1) == (SetupRetried(f, a, b, vni, attempts).0, Done)
    decreases |attempts|
  {
    var (f', e) := Setup(f, a, b, vni, attempts[0].0, attempts[0].1);
    if e == Done then (f, attempts[0]) else SetupDecider(f', a, b, vni, attempts[1..])
  }

  /** In the attempt that decides a retried setup both ends were renewed. */
  predicate SetupRenews(f: Fleet, a: Machine, b: Machine, vni: nat, attempts: seq<Attempt>) {
    SetupRetried(f, a, b, vni, attempts).1 ==>
      var d := SetupDecider(f, a, b, vni, attempts); EndsRenewed(d.0, a, b, vni, d.1)
  }

  /** Earlier runs and earlier attempts, however they broke off, do not matter:
      when a setup returns, the deciding attempt alone settles whether the tunnel
      is this plan's. */
  lemma RetriedSetupPutsTunnelUp(f: Fleet, a: Machine, b: Machine, vni: nat, attempts: seq<Attempt>)
    requires SetupRetried(f, a, b, vni, attempts).1
    ensures TunnelUp(SetupRetried(f, a, b, vni, attempts).0, a, b, vni) <==>
            a.host != b.host && SetupRenews(f, a, b, vni, attempts)
  {
    var d := SetupDecider(f, a, b, vni, attempts);
    SetupPutsTunnelUp(d.0, a, b, vni, d.1);
  }

  /** If no answered delete of the setup's own attempts is refused, both ends are
      renewed from every fleet. */
  lemma WillingDeletesRenew(f: Fleet, a: Machine, b: Machine, vni: nat, attempts: seq<Attempt>)
    requires forall t | t in attempts ::
               && (t.0.choices[1].Answer? ==> t.0.choices[1].willing)
               && (t.1.choices[1].Answer? ==> t.1.choices[1].willing)
    ensures SetupRenews(f, a, b, vni, attempts)
  {
    if SetupRetried(f, a, b, vni, attempts).1 {
      var d := SetupDecider(f, a, b, vni, attempts);
    }
  }

  /** A stale device that survives: if the delete fails behind `; true` and the
      complaint about the name says "already exists", the setup returns with the
      old tunnel still in place. */
  lemma StaleTunnelSurvives(m: Machine, peer: string, vni: nat, staleVni: nat)
    requires staleVni != vni
    ensures var yes, no := Answer(true, true), Answer(false, true);
            var d := map[VXLAN_NAME := Device(staleVni, m.iface, "gone", {}, false)];
            var r := BringUp(d, m, 1, peer, vni, Session(true, [yes, no, yes, yes, yes]));
            r.1 == Done && VXLAN_NAME in r.0 && r.0[VXLAN_NAME].vni == staleVni && r.0[VXLAN_NAME].remote == "gone"
  {
    var yes, no := Answer(true, true), Answer(false, true);
    var d := map[VXLAN_NAME := Device(staleVni, m.iface, "gone", {}, false)];
    var cs, ch := BringUpCommands(m, 1, peer, vni), [yes, no, yes, yes, yes];
    assert RunFrom(d, cs, ch, 0) == RunFrom(d, cs, ch, 2);
    assert RunFrom(d, cs, ch, 2) == RunFrom(d, cs, ch, 3);
    var d3 := Effect(d, AddrAdd(1));
    assert RunFrom(d, cs, ch, 3) == RunFrom(d3, cs, ch, 4);
    assert RunFrom(d3, cs, ch, 4) == (Effect(d3, LinkUp), Done);
  }

  // ---- Clean-up -------------------------------------------------------------------------

  predicate Clean(f: Fleet, host: string) {
    VXLAN_NAME !in DevicesOf(f, host)
  }

  /** The device is gone from the first and from the second host: there was none,
      or a delete of it was carried out (either one if the hosts coincide). */
  predicate BothRemoved(f: Fleet, a: Machine, b: Machine, t: Attempt) {
    RemovedAt(f, a, b, t.0, t.1) && RemovedAt(f, b, a, t.1, t.0)
  }

  predicate RemovedAt(f: Fleet, m: Machine, other: Machine, s: Session, otherSession: Session)
    requires Enough(s) && Enough(otherSession)
  {
    || DeleteTook(DevicesOf(f, m.host), s.choices[0])
    || (m.host == other.host && DeleteTook(DevicesOf(f, m.host), otherSession.choices[0]))
  }

  /** A teardown attempt that returns leaves a host clean exactly when it had no
      device or the deletion was not refused: a refusal is only recorded. */
  lemma TeardownCleans(f: Fleet, a: Machine, b: Machine, t: Attempt)
    requires Teardown(f, a, b, t.0, t.1).1 == Done
    ensures var g := Teardown(f, a, b, t.0, t.1).0;
            && (Clean(g, a.host) <==> RemovedAt(f, a, b, t.0, t.1))
            && (Clean(g, b.host) <==> RemovedAt(f, b, a, t.1, t.0))
  {
    var d := DevicesOf(f, a.host);
    assert (VXLAN_NAME in TakeDown(d, t.0).0) <==> !DeleteTook(d, t.0.choices[0]);
  }

  /** The fleet and the attempt with which a retried teardown returns. */
  function TeardownDecider(f: Fleet, a: Machine, b: Machine, attempts: seq<Attempt>): (d: (Fleet, Attempt))
    requires TeardownRetried(f, a, b, attempts).1
    ensures d.1 in attempts
    ensures Teardown(d.0, a, b, d.1.0, d.1.1) == (TeardownRetried(f, a, b, attempts).0, Done)
    decreases |attempts|
  {
    var (f', e) := Teardown(f, a, b, attempts[0].0, attempts[0].1);
    if e == Done then (f, attempts[0]) else TeardownDecider(f', a, b, attempts[1..])
  }

  /** In the attempt that decides a retried teardown no existing device was kept. */
  predicate TeardownRemoves(f: Fleet, a: Machine, b: Machine, attempts: seq<Attempt>) {
    TeardownRetried(f, a, b, attempts).1 ==>
      var d := TeardownDecider(f, a, b, attempts); BothRemoved(d.0, a, b, d.1)
  }

  /** A retried teardown that returns, from any partial state and after any broken
      attempts, leaves both hosts clean exactly when its deciding attempt had no
      deletion of an existing device refused. */
  lemma RetriedTeardownCleans(f: Fleet, a: Machine, b: Machine, attempts: seq<Attempt>)
    requires TeardownRetried(f, a, b, attempts).1
    ensures var g := TeardownRetried(f, a, b, attempts).0;
            Clean(g, a.host) && Clean(g, b.host) <==> TeardownRemoves(f, a, b, attempts)
  {
    var d := TeardownDecider(f, a, b, attempts);
    TeardownCleans(d.0, a, b, d.1);
  }

  /** The promise that a returning teardown cleans up fails: with both deletions
      refused it returns at once, and the devices are still there. */
  lemma RefusedDeletesSurvive(a: Machine, b: Machine, device: Device, other: Device)
    requires a.host != b.host
    ensures var f := map[a.host := map[VXLAN_NAME := device], b.host := map[VXLAN_NAME := other]];
            var refusing := Session(true, seq(5, _ => Answer(false, false)));
            var r := Teardown(f, a, b, refusing, refusing);
            r == (f, Done) && !Clean(r.0, a.host) && !Clean(r.0, b.host)
  {
    var f := map[a.host := map[VXLAN_NAME := device], b.host := map[VXLAN_NAME := other]];
    assert f[a.host := f[a.host]] == f && f[b.host := f[b.host]] == f;
  }

  // ---- Frame ------------------------------------------------------------------------------

  /** Nothing but the tunnel device of the named hosts has changed. */
  ghost predicate OthersUntouched(f: Fleet, g: Fleet, hosts: set<string>) {
    forall h, n :: n in DevicesOf(f, h) || n in DevicesOf(g, h) ==>
      (h in hosts && n == VXLAN_NAME) ||
      (n in DevicesOf(f, h) && n in DevicesOf(g, h) && DevicesOf(f, h)[n] == DevicesOf(g, h)[n])
  }

  lemma {:induction false} RunFromFrame(d: Devices, cs: seq<Command>, choices: seq<Choice>, k: nat)
    requires k <= |cs| <= |choices|
    ensures RunFrom(d, cs, choices, k).0 - {VXLAN_NAME} == d - {VXLAN_NAME}
    decreases |cs| - k
  {
    if k < |cs| {
      var (d', reply) := Exec(d, cs[k], choices[k]);
      assert d' - {VXLAN_NAME} == d - {VXLAN_NAME};
      if reply == Ok || reply == Error(true) {
        RunFromFrame(d', cs, choices, k + 1);
      }
    }
  }

  lemma UpdateFrame(f: Fleet, host: string, d: Devices)
    requires d - {VXLAN_NAME} == DevicesOf(f, host) - {VXLAN_NAME}
    ensures OthersUntouched(f, f[host := d], {host})
  {
    forall n | n != VXLAN_NAME
      ensures n in d <==> n in DevicesOf(f, host)
      ensures n in d ==> d[n] == DevicesOf(f, host)[n]
    {
      assert n in d <==> n in d - {VXLAN_NAME};
      assert n in DevicesOf(f, host) <==> n in DevicesOf(f, host) - {VXLAN_NAME};
    }
  }

  lemma SetupFrame(f: Fleet, a: Machine, b: Machine, vni: nat, t: Attempt)
    ensures OthersUntouched(f, Setup(f, a, b, vni, t.0, t.1).0, {a.host, b.host})
  {
    var da := BringUp(DevicesOf(f, a.host), a, 1, b.host, vni, t.0).0;
    RunFromFrame(DevicesOf(f, a.host), BringUpCommands(a, 1, b.host, vni), t.0.choices, 0);
    UpdateFrame(f, a.host, da);
    var f' := f[a.host := da];
    RunFromFrame(DevicesOf(f', b.host), BringUpCommands(b, 2, a.host, vni), t.1.choices, 0);
    UpdateFrame(f', b.host, BringUp(DevicesOf(f', b.host), b, 2, a.host, vni, t.1).0);
  }

  lemma TeardownFrame(f: Fleet, a: Machine, b: Machine, t: Attempt)
    ensures OthersUntouched(f, Teardown(f, a, b, t.0, t.1).0, {a.host, b.host})
  {
    var da := TakeDown(DevicesOf(f, a.host), t.0).0;
    UpdateFrame(f, a.host, da);
    var f' := f[a.host := da];
    UpdateFrame(f', b.host, TakeDown(DevicesOf(f', b.host), t.1).0);
  }

  lemma {:induction false} SetupRetriedFrame(f: Fleet, a: Machine, b: Machine, vni: nat, attempts: seq<Attempt>)
    ensures OthersUntouched(f, SetupRetried(f, a, b, vni, attempts).0, {a.host, b.host})
    decreases |attempts|
  {
    if attempts != [] {
      SetupFrame(f, a, b, vni, attempts[0]);
      SetupRetriedFrame(Setup(f, a, b, vni, attempts[0].0, attempts[0].1).0, a, b, vni, attempts[1..]);
    }
  }

  lemma {:induction false} TeardownRetriedFrame(f: Fleet, a: Machine, b: Machine, attempts: seq<Attempt>)
    ensures OthersUntouched(f, TeardownRetried(f, a, b, attempts).0, {a.host, b.host})
    decreases |attempts|
  {
    if attempts != [] {
      TeardownFrame(f, a, b, attempts[0]);
      TeardownRetriedFrame(Teardown(f, a, b, attempts[0].0, attempts[0].1).0, a, b, attempts[1..]);
    }
  }

  /** However an attempt ends, what its commands did stays done, and the second host
      is only touched if the first one was done. */
  lemma PartialEffectsStay(f: Fleet, a: Machine, b: Machine, vni: nat, t: Attempt)
    requires a.host != b.host
    ensures var g, first := Setup(f, a, b, vni, t.0, t.1).0, BringUp(DevicesOf(f, a.host), a, 1, b.host, vni, t.0);
            && DevicesOf(g, a.host) == first.0
            && DevicesOf(g, b.host) ==
               if first.1 == Done then BringUp(DevicesOf(f, b.host), b, 2, a.host, vni, t.1).0 else DevicesOf(f, b.host)
    ensures var g, first := Teardown(f, a, b, t.0, t.1).0, TakeDown(DevicesOf(f, a.host), t.0);
            && DevicesOf(g, a.host) == first.0
            && DevicesOf(g, b.host) ==
               if first.1 == Done then TakeDown(DevicesOf(f, b.host), t.1).0 else DevicesOf(f, b.host)
  {
    assert f[a.host := BringUp(DevicesOf(f, a.host), a, 1, b.host, vni, t.0).0][a.host] ==
           BringUp(DevicesOf(f, a.host), a, 1, b.host, vni, t.0).0;
  }

  // ---- The workflow --------------------------------------------------------------------------

  datatype Measurement = Measured(passed: bool) | MeasurementRaised

  /** One run's environment: the attempts of its activities and the measurement. */
  datatype Course = Course(setup: seq<Attempt>, measurement: Measurement, teardown: seq<Attempt>)

  /** What a run leaves and what happened in it: the fleet as the measurement found
      it, whether teardown was invoked and returned, and whether the run returned. */
  datatype Trace = Trace(fleet: Fleet, measuredOn: Option<Fleet>, tornDown: Option<bool>, returned: bool)

  function RunEncap(f: Fleet, a: Machine, b: Machine, vni: nat, c: Course): Trace {
    var (f1, up) := SetupRetried(f, a, b, vni, c.setup);
    if !up then Trace(f1, None, None, false)
    else
      var (f2, down) := TeardownRetried(f1, a, b, c.teardown);
      Trace(f2, Some(f1), Some(down), down && c.measurement.Measured?)
  }

  /** From any fleet, whatever earlier runs left and however this one goes: nothing
      but the tunnel device of the two hosts is touched; the measurement starts and
      teardown is invoked exactly when some setup attempt was done before any was
      rejected, even if the measurement raises; teardown returns exactly when one of
      its attempts is done; what is measured is this plan's tunnel exactly when the hosts differ
      and the deciding setup attempt renewed both ends; and once teardown returned,
      the hosts are clean exactly when it refused no deletion. */
  lemma Lifecycle(f: Fleet, a: Machine, b: Machine, vni: nat, c: Course)
    ensures var t := RunEncap(f, a, b, vni, c);
            && OthersUntouched(f, t.fleet, {a.host, b.host})
            && (t.measuredOn.Some? <==> SetupRetried(f, a, b, vni, c.setup).1)
            && (t.measuredOn.Some? <==> SetupSucceeds(f, a, b, vni, c.setup))
            && (t.tornDown.Some? <==> t.measuredOn.Some?)
            && (t.measuredOn.Some? ==>
                  (t.tornDown == Some(true) <==> TeardownSucceeds(t.measuredOn.value, a, b, c.teardown)))
            && (t.returned <==> t.tornDown == Some(true) && c.measurement.Measured?)
            && (t.measuredOn.Some? ==>
                  (TunnelUp(t.measuredOn.value, a, b, vni) <==>
                   a.host != b.host && SetupRenews(f, a, b, vni, c.setup)))
            && (t.tornDown == Some(true) ==>
                  (Clean(t.fleet, a.host) && Clean(t.fleet, b.host) <==>
                   TeardownRemoves(t.measuredOn.value, a, b, c.teardown)))
  {
    var (f1, up) := SetupRetried(f, a, b, vni, c.setup);
    SetupReturnsIff(f, a, b, vni, c.setup);
    SetupRetriedFrame(f, a, b, vni, c.setup);
    if up {
      TeardownReturnsIff(f1, a, b, c.teardown);
      RetriedSetupPutsTunnelUp(f, a, b, vni, c.setup);
      TeardownRetriedFrame(f1, a, b, c.teardown);
      if TeardownRetried(f1, a, b, c.teardown).1 {
        RetriedTeardownCleans(f1, a, b, c.teardown);
      }
    }
  }

  /** One run of the workflow: its two hosts, its VNI and what happened in it. */
  datatype Episode = Episode(a: Machine, b: Machine, vni: nat, course: Course)

  /** The fleet after a sequence of runs, each between hosts of its own and ending
      however it may. */
  function RunAll(f: Fleet, runs: seq<Episode>): Fleet {
    if runs == [] then f
    else
      var last := runs[|runs| - 1];
      RunEncap(RunAll(f, runs[..|runs| - 1]), last.a, last.b, last.vni, last.course).fleet
  }

  function HostsOf(runs: seq<Episode>): set<string> {
    (set r | r in runs :: r.a.host) + (set r | r in runs :: r.b.host)
  }

  lemma OthersUntouchedTrans(f: Fleet, g: Fleet, k: Fleet, s: set<string>, t: set<string>, hosts: set<string>)
    requires OthersUntouched(f, g, s) && OthersUntouched(g, k, t) && s <= hosts && t <= hosts
    ensures OthersUntouched(f, k, hosts)
  {
  }

  /** Over any history, with whatever refusals and crashes, nothing but the tunnel
      devices of the hosts that took part ever changes. */
  lemma {:induction false} RunAllFrame(f: Fleet, runs: seq<Episode>)
    ensures OthersUntouched(f, RunAll(f, runs), HostsOf(runs))
  {
    if runs != [] {
      var init, last := runs[..|runs| - 1], runs[|runs| - 1];
      assert runs == init + [last];
      RunAllFrame(f, init);
      Lifecycle(RunAll(f, init), last.a, last.b, last.vni, last.course);
      OthersUntouchedTrans(f, RunAll(f, init), RunAll(f, runs), HostsOf(init), {last.a.host, last.b.host}, HostsOf(runs));
    }
  }

  /** Two arbitrary histories of runs between arbitrary hosts, crashed, refused or
      not, each followed by a run of the same plan: if both measure and their own
      deciding setups renewed the ends, they measure on identical tunnels. */
  lemma HistoryIndependence(f: Fleet, g: Fleet, before: seq<Episode>, other: seq<Episode>,
                            a: Machine, b: Machine, vni: nat, c: Course, k: Course)
    requires a.host != b.host
    requires SetupRenews(RunAll(f, before), a, b, vni, c.setup)
    requires SetupRenews(RunAll(g, other), a, b, vni, k.setup)
    ensures var s := RunEncap(RunAll(f, before), a, b, vni, c);
            var t := RunEncap(RunAll(g, other), a, b, vni, k);
            s.measuredOn.Some? && t.measuredOn.Some? ==>
              forall h | h in {a.host, b.host} ::
                && VXLAN_NAME in DevicesOf(s.measuredOn.value, h)
                && VXLAN_NAME in DevicesOf(t.measuredOn.value, h)
                && DevicesOf(s.measuredOn.value, h)[VXLAN_NAME] == DevicesOf(t.measuredOn.value, h)[VXLAN_NAME]
    ensures RunAll(f, before + [Episode(a, b, vni, c)]) == RunEncap(RunAll(f, before), a, b, vni, c).fleet
  {
    assert (before + [Episode(a, b, vni, c)])[..|before|] == before;
    Lifecycle(RunAll(f, before), a, b, vni, c);
    Lifecycle(RunAll(g, other), a, b, vni, k);
  }

  /** A rejected setup attempt ends the run there and then: no further attempt, no
      measurement, no teardown. */
  lemma RejectionEndsRun(f: Fleet, a: Machine, b: Machine, vni: nat, c: Course, k: nat)
    requires SetupSettlesAt(f, a, b, vni, c.setup, k) && SetupEnds(f, a, b, vni, c.setup, k) == Rejected
    ensures RunEncap(f, a, b, vni, c) == Trace(SetupBegins(f, a, b, vni, c.setup, k + 1), None, None, false)
  {
    SetupStopsAt(f, a, b, vni, c.setup, k);
  }

  /** A setup that raises is not followed by a teardown: when the second host
      rejects the first command, the first host keeps its device. */
  lemma RaisingSetupSkipsTeardown(a: Machine, b: Machine, vni: nat)
    requires a.host != b.host
    ensures var yes, no := Answer(true, false), Answer(false, false);
            var ta := Session(true, [yes, yes, yes, yes, yes]);
            var tb := Session(true, [no, yes, yes, yes, yes]);
            var t := RunEncap(map[], a, b, vni, Course([(ta, tb)], Measured(true), [(ta, ta)]));
            t.tornDown.None? && !t.returned && !Clean(t.fleet, a.host)
  {
    var yes, no := Answer(true, false), Answer(false, false);
    var ta := Session(true, [yes, yes, yes, yes, yes]);
    var tb := Session(true, [no, yes, yes, yes, yes]);
    var t: Attempt := (ta, tb);
    var cs, d := BringUpCommands(a, 1, b.host, vni), map[];
    assert RunFrom(d, cs, ta.choices, 0) == RunFrom(d, cs, ta.choices, 2);
    var d2 := Effect(d, cs[2]);
    assert RunFrom(d, cs, ta.choices, 2) == RunFrom(d2, cs, ta.choices, 3);
    var d3 := Effect(d2, cs[3]);
    assert RunFrom(d2, cs, ta.choices, 3) == RunFrom(d3, cs, ta.choices, 4);
    assert RunFrom(d3, cs, ta.choices, 4) == (Effect(d3, LinkUp), Done);
    assert Setup(map[], a, b, vni, t.0, t.1).1 == Rejected;
    assert SetupRetried(map[], a, b, vni, [t]).1 == false;
  }
}
