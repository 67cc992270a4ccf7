/** A command of an overtaken setup or teardown attempt that reaches a host late,
    while a retry brings the device up there or after it has. */
module VxlanLate {

  import opened Vxlan

  /** What an attempt of the same plan, or a teardown, may still send to this host. */
  predicate Overdue(c: Command, m: Machine, index: nat, peer: string, vni: nat) {
    c in BringUpCommands(m, index, peer, vni) || c == LinkDel
  }

  predicate CarriedOut(choice: Choice) {
    match choice
    case Answer(willing, _) => willing
    case Lose(tookEffect) => tookEffect
  }

  predicate Deletes(c: Command, choice: Choice) {
    (c.LinkDel? || c.LinkDelOrTrue?) && CarriedOut(choice)
  }

  /** The commands from position `k` on, with the late one before position `at`. */
  function RunLate(d: Devices, cs: seq<Command>, choices: seq<Choice>, k: nat, at: nat, late: Command,
                   choice: Choice): (Devices, Ending)
    requires k <= at <= |cs| <= |choices|
    decreases |cs| - k
  {
    if k == at then RunFrom(Exec(d, late, choice).0, cs, choices, at)
    else
      var (d', reply) := Exec(d, cs[k], choices[k]);
      match reply
      case Lost => (d', Broken)
      case Error(false) => (d', Rejected)
      case _ => RunLate(d', cs, choices, k + 1, at, late, choice)
  }

  /** A returning run has had its next command answered, and goes on. */
  lemma NextFrom(d: Devices, cs: seq<Command>, ch: seq<Choice>, k: nat)
    requires k < |cs| <= |ch| && RunFrom(d, cs, ch, k).1 == Done
    ensures ch[k].Answer? && Exec(d, cs[k], ch[k]).1 in {Ok, Error(true)}
    ensures RunFrom(d, cs, ch, k) == RunFrom(Exec(d, cs[k], ch[k]).0, cs, ch, k + 1)
  {
  }

  lemma NextLate(d: Devices, cs: seq<Command>, ch: seq<Choice>, k: nat, at: nat, late: Command, choice: Choice)
    requires k < at <= |cs| <= |ch| && RunLate(d, cs, ch, k, at, late, choice).1 == Done
    ensures ch[k].Answer? && Exec(d, cs[k], ch[k]).1 in {Ok, Error(true)}
    ensures RunLate(d, cs, ch, k, at, late, choice) ==
            RunLate(Exec(d, cs[k], ch[k]).0, cs, ch, k + 1, at, late, choice)
  {
  }

  // ---- What the rest of a bring-up makes of a state ----------------------------------

  lemma FromLinkUp(d: Devices, m: Machine, index: nat, peer: string, vni: nat, ch: seq<Choice>)
    requires |ch| == 5 && RunFrom(d, BringUpCommands(m, index, peer, vni), ch, 4).1 == Done
    ensures VXLAN_NAME in d
    ensures RunFrom(d, BringUpCommands(m, index, peer, vni), ch, 4).0 ==
            d[VXLAN_NAME := d[VXLAN_NAME].(up := true)]
  {
  }

  lemma FromAddrAdd(d: Devices, m: Machine, index: nat, peer: string, vni: nat, ch: seq<Choice>)
    requires |ch| == 5 && RunFrom(d, BringUpCommands(m, index, peer, vni), ch, 3).1 == Done
    ensures VXLAN_NAME in d
    ensures RunFrom(d, BringUpCommands(m, index, peer, vni), ch, 3).0 ==
            d[VXLAN_NAME := Extended(d[VXLAN_NAME], index)]
  {
    var d' := Exec(d, AddrAdd(index), ch[3]).0;
    FromLinkUp(d', m, index, peer, vni, ch);
    assert d'[VXLAN_NAME].addresses == d[VXLAN_NAME].addresses + {index};
  }

  lemma FromLinkAdd(d: Devices, m: Machine, index: nat, peer: string, vni: nat, ch: seq<Choice>)
    requires |ch| == 5 && RunFrom(d, BringUpCommands(m, index, peer, vni), ch, 2).1 == Done
    ensures RunFrom(d, BringUpCommands(m, index, peer, vni), ch, 2).0 ==
            d[VXLAN_NAME := if VXLAN_NAME in d then Extended(d[VXLAN_NAME], index) else Planned(m, index, peer, vni)]
  {
    var d' := Exec(d, LinkAdd(vni, m.iface, peer), ch[2]).0;
    FromAddrAdd(d', m, index, peer, vni, ch);
    assert {} + {index} == {index};
  }

  lemma FromDelete(d: Devices, m: Machine, index: nat, peer: string, vni: nat, ch: seq<Choice>)
    requires |ch| == 5 && RunFrom(d, BringUpCommands(m, index, peer, vni), ch, 1).1 == Done
    ensures RunFrom(d, BringUpCommands(m, index, peer, vni), ch, 1).0 ==
            d[VXLAN_NAME := if DeleteTook(d, ch[1]) then Planned(m, index, peer, vni)
                            else Extended(d[VXLAN_NAME], index)]
  {
    var d' := Exec(d, LinkDelOrTrue, ch[1]).0;
    assert ch[1].Answer?;
    FromLinkAdd(d', m, index, peer, vni, ch);
  }

  // ---- One late command ----------------------------------------------------------------

  /** The freshly added device, before it has an address. */
  function Fresh(m: Machine, peer: string, vni: nat): Device {
    Device(vni, m.iface, peer, {}, false)
  }

  lemma FreshExtends(m: Machine, index: nat, peer: string, vni: nat)
    ensures Extended(Fresh(m, peer, vni), index) == Planned(m, index, peer, vni)
  {
    assert {} + {index} == {index};
  }

  /** Without a device there, a late command at most adds the plan's own. */
  lemma LateTouches(d: Devices, m: Machine, index: nat, peer: string, vni: nat, late: Command, choice: Choice, t: Device)
    requires Overdue(late, m, index, peer, vni)
    ensures var l := Exec(d, late, choice).0;
            && l[VXLAN_NAME := t] == d[VXLAN_NAME := t]
            && (VXLAN_NAME !in d && VXLAN_NAME in l ==> l[VXLAN_NAME] == Fresh(m, peer, vni))
  {
  }

  lemma SameElsewhere(d: Devices, d': Devices, t: Device)
    requires d - {VXLAN_NAME} == d' - {VXLAN_NAME}
    ensures d[VXLAN_NAME := t] == d'[VXLAN_NAME := t]
  {
    assert d[VXLAN_NAME := t] == (d - {VXLAN_NAME})[VXLAN_NAME := t];
  }

  /** Late before the device's deletion. */
  lemma LateBeforeDeleting(d: Devices, m: Machine, index: nat, peer: string, vni: nat, ch: seq<Choice>, at: nat,
                           late: Command, choice: Choice)
    requires |ch| == 5 && at < 2 && Overdue(late, m, index, peer, vni) && DeleteTook(d, ch[1])
    requires RunLate(d, BringUpCommands(m, index, peer, vni), ch, 0, at, late, choice).1 == Done
    ensures RunLate(d, BringUpCommands(m, index, peer, vni), ch, 0, at, late, choice).0 ==
            d[VXLAN_NAME := Planned(m, index, peer, vni)]
  {
    var cs, l := BringUpCommands(m, index, peer, vni), Exec(d, late, choice).0;
    if at == 0 {
      NextFrom(l, cs, ch, 0);
    } else {
      NextLate(d, cs, ch, 0, 1, late, choice);
    }
    FromDelete(l, m, index, peer, vni, ch);
    LateTouches(d, m, index, peer, vni, late, choice, Planned(m, index, peer, vni));
    FreshExtends(m, index, peer, vni);
  }

  /** Late between the device's deletion and its addition. */
  lemma LateBeforeAdding(d: Devices, m: Machine, index: nat, peer: string, vni: nat, ch: seq<Choice>,
                         late: Command, choice: Choice)
    requires |ch| == 5 && Overdue(late, m, index, peer, vni) && DeleteTook(d, ch[1])
    requires RunLate(d, BringUpCommands(m, index, peer, vni), ch, 0, 2, late, choice).1 == Done
    ensures RunLate(d, BringUpCommands(m, index, peer, vni), ch, 0, 2, late, choice).0 ==
            d[VXLAN_NAME := Planned(m, index, peer, vni)]
  {
    var cs, d1 := BringUpCommands(m, index, peer, vni), Exec(d, LinkDelOrTrue, ch[1]).0;
    NextLate(d, cs, ch, 0, 2, late, choice);
    NextLate(d, cs, ch, 1, 2, late, choice);
    var l := Exec(d1, late, choice).0;
    FromLinkAdd(l, m, index, peer, vni, ch);
    SameElsewhere(d1, d, Planned(m, index, peer, vni));
    LateTouches(d1, m, index, peer, vni, late, choice, Planned(m, index, peer, vni));
    FreshExtends(m, index, peer, vni);
  }

  /** After the addition the device is the fresh one, unless its VNI was taken. */
  lemma Added(d: Devices, m: Machine, peer: string, vni: nat, choice: Choice)
    requires VXLAN_NAME !in d && Exec(d, LinkAdd(vni, m.iface, peer), choice).1 in {Ok, Error(true)}
    ensures var d' := Exec(d, LinkAdd(vni, m.iface, peer), choice).0;
            && (if VXLAN_NAME in d' then d'[VXLAN_NAME] == Fresh(m, peer, vni) else VniTaken(d', vni))
            && d' - {VXLAN_NAME} == d - {VXLAN_NAME}
  {
  }

  /** Late after the device was added. */
  lemma LateAfterAdding(d: Devices, m: Machine, index: nat, peer: string, vni: nat, ch: seq<Choice>, at: nat,
                        late: Command, choice: Choice)
    requires |ch| == 5 && 3 <= at <= 5 && Overdue(late, m, index, peer, vni) && DeleteTook(d, ch[1])
    requires RunLate(d, BringUpCommands(m, index, peer, vni), ch, 0, at, late, choice).1 == Done
    ensures RunLate(d, BringUpCommands(m, index, peer, vni), ch, 0, at, late, choice).0 ==
            if at == 5 && Deletes(late, choice) then d - {VXLAN_NAME}
            else d[VXLAN_NAME := Planned(m, index, peer, vni)]
  {
    var cs := BringUpCommands(m, index, peer, vni);
    var d1 := Exec(d, LinkDelOrTrue, ch[1]).0;
    NextLate(d, cs, ch, 0, at, late, choice);
    NextLate(d, cs, ch, 1, at, late, choice);
    NextLate(d1, cs, ch, 2, at, late, choice);
    var d2 := Exec(d1, cs[2], ch[2]).0;
    Added(d1, m, peer, vni, ch[2]);
    LateFromAddrAdd(d2, m, index, peer, vni, ch, at, late, choice);
    assert d1 - {VXLAN_NAME} == d - {VXLAN_NAME};
    SameElsewhere(d2, d, Planned(m, index, peer, vni));
  }

  lemma LateFromAddrAdd(d: Devices, m: Machine, index: nat, peer: string, vni: nat, ch: seq<Choice>, at: nat,
                        late: Command, choice: Choice)
    requires |ch| == 5 && 3 <= at <= 5 && Overdue(late, m, index, peer, vni)
    requires VXLAN_NAME in d ==> d[VXLAN_NAME] == Fresh(m, peer, vni)
    requires VXLAN_NAME !in d ==> VniTaken(d, vni)
    requires RunLate(d, BringUpCommands(m, index, peer, vni), ch, 3, at, late, choice).1 == Done
    ensures VXLAN_NAME in d
    ensures RunLate(d, BringUpCommands(m, index, peer, vni), ch, 3, at, late, choice).0 ==
            if at == 5 && Deletes(late, choice) then d - {VXLAN_NAME}
            else d[VXLAN_NAME := Planned(m, index, peer, vni)]
  {
    var cs := BringUpCommands(m, index, peer, vni);
    FreshExtends(m, index, peer, vni);
    if at == 3 {
      FromAddrAdd(Exec(d, late, choice).0, m, index, peer, vni, ch);
      assert {index} + {index} == {index};
    } else {
      var d3 := Exec(d, AddrAdd(index), ch[3]).0;
      assert VXLAN_NAME in d && d3 == d[VXLAN_NAME := Fresh(m, peer, vni).(addresses := {} + {index})];
      assert RunLate(d, cs, ch, 3, at, late, choice) == RunLate(d3, cs, ch, 4, at, late, choice);
      LateFromLinkUp(d3, m, index, peer, vni, ch, at, late, choice);
    }
  }

  lemma LateFromLinkUp(d: Devices, m: Machine, index: nat, peer: string, vni: nat, ch: seq<Choice>, at: nat,
                       late: Command, choice: Choice)
    requires |ch| == 5 && 4 <= at <= 5 && Overdue(late, m, index, peer, vni)
    requires VXLAN_NAME in d && d[VXLAN_NAME] == Planned(m, index, peer, vni).(up := false)
    requires RunLate(d, BringUpCommands(m, index, peer, vni), ch, 4, at, late, choice).1 == Done
    ensures RunLate(d, BringUpCommands(m, index, peer, vni), ch, 4, at, late, choice).0 ==
            if at == 5 && Deletes(late, choice) then d - {VXLAN_NAME}
            else d[VXLAN_NAME := Planned(m, index, peer, vni)]
  {
    var cs := BringUpCommands(m, index, peer, vni);
    if at == 4 {
      FromLinkUp(Exec(d, late, choice).0, m, index, peer, vni, ch);
    } else {
      var d4 := Exec(d, LinkUp, ch[4]).0;
      assert RunLate(d, cs, ch, 4, 5, late, choice) == RunLate(d4, cs, ch, 5, 5, late, choice);
      assert RunLate(d4, cs, ch, 5, 5, late, choice) == (Exec(d4, late, choice).0, Done);
    }
  }

  /** One command of an overtaken attempt, arriving at any point of a bring-up whose
      own deletion is obeyed: if the bring-up still returns, it has put up the planned
      end, unless the command is a deletion carried out after the last step. A
      deletion that falls between adding and activating the device makes it fail. */
  lemma OneLateCommand(d: Devices, m: Machine, index: nat, peer: string, vni: nat, ch: seq<Choice>, at: nat,
                       late: Command, choice: Choice)
    requires |ch| == 5 && at <= 5 && Overdue(late, m, index, peer, vni) && DeleteTook(d, ch[1])
    requires RunLate(d, BringUpCommands(m, index, peer, vni), ch, 0, at, late, choice).1 == Done
    ensures RunLate(d, BringUpCommands(m, index, peer, vni), ch, 0, at, late, choice).0 ==
            if at == 5 && Deletes(late, choice) then d - {VXLAN_NAME}
            else d[VXLAN_NAME := Planned(m, index, peer, vni)]
  {
    if at < 2 {
      LateBeforeDeleting(d, m, index, peer, vni, ch, at, late, choice);
    } else if at == 2 {
      LateBeforeAdding(d, m, index, peer, vni, ch, late, choice);
    } else {
      LateAfterAdding(d, m, index, peer, vni, ch, at, late, choice);
    }
  }

  /** Of the commands that can still reach a host once the tunnel is up, exactly the
      deletions that are carried out take it down. */
  lemma LateAgainstTunnel(f: Fleet, a: Machine, b: Machine, vni: nat, late: Command, choice: Choice)
    requires a.host != b.host && TunnelUp(f, a, b, vni)
    ensures Overdue(late, a, 1, b.host, vni) ==>
              (TunnelUp(f[a.host := Exec(DevicesOf(f, a.host), late, choice).0], a, b, vni) <==> !Deletes(late, choice))
    ensures Overdue(late, b, 2, a.host, vni) ==>
              (TunnelUp(f[b.host := Exec(DevicesOf(f, b.host), late, choice).0], a, b, vni) <==> !Deletes(late, choice))
  {
  }
}
