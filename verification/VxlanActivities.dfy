/** The VXLAN activities and their workflow as they run: loops over commands,
    hosts and attempts, changing the hosts in place. */
module VxlanActivities {

  import opened Wrappers
  import opened Vxlan

  class Cluster {
    var fleet: Fleet

    constructor (fleet: Fleet)
      ensures this.fleet == fleet
    {
      this.fleet := fleet;
    }

    /** `run_sudo` on one host. */
    method RunSudo(host: string, command: Command, choice: Choice) returns (reply: Reply)
      modifies this
      ensures fleet == old(fleet)[host := Exec(DevicesOf(old(fleet), host), command, choice).0]
      ensures reply == Exec(DevicesOf(old(fleet), host), command, choice).1
    {
      var (devices, r) := Exec(DevicesOf(fleet, host), command, choice);
      fleet := fleet[host := devices];
      reply := r;
    }

    method BringUpVxlan(m: Machine, index: nat, peer: string, vni: nat, s: Session) returns (ending: Ending)
      requires Enough(s)
      modifies this
      ensures fleet == old(fleet)[m.host := BringUp(DevicesOf(old(fleet), m.host), m, index, peer, vni, s).0]
      ensures ending == BringUp(DevicesOf(old(fleet), m.host), m, index, peer, vni, s).1
    {
      fleet := fleet[m.host := DevicesOf(fleet, m.host)];
      if !s.opens {
        return Broken;
      }
      ghost var d := DevicesOf(old(fleet), m.host);
      var cmds := BringUpCommands(m, index, peer, vni);
      for i := 0 to |cmds|
        invariant m.host in fleet && fleet == old(fleet)[m.host := fleet[m.host]]
        invariant RunFrom(fleet[m.host], cmds, s.choices, i) == RunFrom(d, cmds, s.choices, 0)
      {
        var reply := RunSudo(m.host, cmds[i], s.choices[i]);
        if reply == Lost {
          return Broken;
        }
        if reply != Ok && reply != Error(true) {
          return Rejected;
        }
      }
      return Done;
    }

    method SetupVxlan(a: Machine, b: Machine, vni: nat, t: Attempt) returns (ending: Ending)
      modifies this
      ensures (fleet, ending) == Setup(old(fleet), a, b, vni, t.0, t.1)
    {
      ending := BringUpVxlan(a, 1, b.host, vni, t.0);
      if ending == Done {
        ending := BringUpVxlan(b, 2, a.host, vni, t.1);
      }
    }

    /** Deletes the device in one session; the exit status is only recorded. */
    method DeleteLink(host: string, s: Session) returns (ending: Ending, exitOk: bool)
      requires Enough(s)
      modifies this
      ensures fleet == old(fleet)[host := TakeDown(DevicesOf(old(fleet), host), s).0]
      ensures ending == TakeDown(DevicesOf(old(fleet), host), s).1
    {
      if !s.opens {
        fleet := fleet[host := DevicesOf(fleet, host)];
        return Broken, false;
      }
      var reply := RunSudo(host, LinkDel, s.choices[0]);
      return if reply == Lost then Broken else Done, reply == Ok;
    }

    /** Deletes the device on both hosts in turn. */
    method TeardownVxlan(a: Machine, b: Machine, t: Attempt) returns (ending: Ending, exits: seq<bool>)
      modifies this
      ensures (fleet, ending) == Teardown(old(fleet), a, b, t.0, t.1)
      ensures ending == Done ==> |exits| == 2
    {
      var machines, sessions := [a, b], [t.0, t.1];
      ghost var f := old(fleet);
      ghost var (da, ea) := TakeDown(DevicesOf(f, a.host), t.0);
      exits := [];
      for i := 0 to 2
        invariant |exits| == i
        invariant i == 0 ==> fleet == f
        invariant i == 1 ==> ea == Done && fleet == f[a.host := da]
        invariant i == 2 ==> (fleet, Done) == Teardown(f, a, b, t.0, t.1)
      {
        var exitOk;
        ending, exitOk := DeleteLink(machines[i].host, sessions[i]);
        if ending != Done {
          return;
        }
        exits := exits + [exitOk];
      }
      return Done, exits;
    }

    /** `execute_activity("setup_vxlan", ...)`: false when it finally raises. */
    method ExecuteSetup(a: Machine, b: Machine, vni: nat, attempts: seq<Attempt>) returns (returned: bool)
      modifies this
      ensures (fleet, returned) == SetupRetried(old(fleet), a, b, vni, attempts)
    {
      for i := 0 to |attempts|
        invariant SetupRetried(fleet, a, b, vni, attempts[i..]) == SetupRetried(old(fleet), a, b, vni, attempts)
      {
        assert attempts[i..][0] == attempts[i] && attempts[i..][1..] == attempts[i + 1..];
        var ending := SetupVxlan(a, b, vni, attempts[i]);
        if ending != Broken {
          return ending == Done;
        }
      }
      return false;
    }

    /** `execute_activity("teardown_vxlan", ...)`: false when it finally raises. */
    method ExecuteTeardown(a: Machine, b: Machine, attempts: seq<Attempt>) returns (returned: bool)
      modifies this
      ensures (fleet, returned) == TeardownRetried(old(fleet), a, b, attempts)
    {
      for i := 0 to |attempts|
        invariant TeardownRetried(fleet, a, b, attempts[i..]) == TeardownRetried(old(fleet), a, b, attempts)
      {
        assert attempts[i..][0] == attempts[i] && attempts[i..][1..] == attempts[i + 1..];
        var ending, _ := TeardownVxlan(a, b, attempts[i]);
        if ending == Done {
          return true;
        }
      }
      return false;
    }

    /** The workflow: set up outside the `try`, measure inside, tear down in the
        `finally`. Returns what the measurement saw and how the run went. */
    method Run(a: Machine, b: Machine, vni: nat, c: Course) returns (trace: Trace)
      modifies this
      ensures trace == RunEncap(old(fleet), a, b, vni, c) && trace.fleet == fleet
    {
      var up := ExecuteSetup(a, b, vni, c.setup);
      if !up {
        return Trace(fleet, None, None, false);
      }
      var measuredOn := fleet;
      var pending := c.measurement.MeasurementRaised?;
      var down := ExecuteTeardown(a, b, c.teardown);
      return Trace(fleet, Some(measuredOn), Some(down), down && !pending);
    }
  }
}
