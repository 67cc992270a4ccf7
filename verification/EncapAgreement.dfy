/** The encapsulation workflow seen both ways: as a child that awaits activities,
    and as what its activities do to the hosts. */
module EncapAgreement {

  import opened Wrappers
  import opened Model
  import opened Jobs
  import ChildRun
  import V = Vxlan

  /** The ends of a plan's tunnel on their mesh interfaces. */
  function EndA(p: EncapPlan, iface: string): V.Machine { V.Machine(p.hostA.host, iface) }

  function EndB(p: EncapPlan, iface: string): V.Machine { V.Machine(p.hostB.host, iface) }

  /** The outcomes are those of a course on the hosts: an activity returns exactly
      when its attempts do; setup and teardown that return say `passed`. */
  predicate Agrees(p: EncapPlan, o: Oracle, f: V.Fleet, a: V.Machine, b: V.Machine, c: V.Course) {
    var (f1, up) := V.SetupRetried(f, a, b, p.vni, c.setup);
    var setup, iperf, teardown := o(SetupVxlan), o(Iperf3OverTunnel), o(TeardownVxlan);
    && (setup.Returned? <==> up)
    && (up ==> setup.result.status == Passed)
    && (up ==> (teardown.Returned? <==> V.TeardownRetried(f1, a, b, c.teardown).1))
    && (teardown.Returned? ==> teardown.result.status == Passed)
    && (iperf.Returned? <==> c.measurement.Measured?)
    && (iperf.Returned? ==> (iperf.result.status == Passed <==> c.measurement.passed))
  }

  lemma RaisingSetup(p: EncapPlan, o: Oracle)
    requires o(SetupVxlan).Raised?
    ensures Results(EncapJob(p), o).None?
  {
    EncapLayout(p, o);
    assert SetupVxlan in EncapActivities(o);
  }

  lemma ThreeActivities(p: EncapPlan, o: Oracle)
    requires o(SetupVxlan).Returned? && o(SetupVxlan).result.status == Passed
    ensures Results(EncapJob(p), o) ==
            if o(Iperf3OverTunnel).Raised? || o(TeardownVxlan).Raised? then None
            else Some([o(SetupVxlan).result, o(Iperf3OverTunnel).result, o(TeardownVxlan).result])
  {
    EncapLayout(p, o);
    var all := [SetupVxlan, Iperf3OverTunnel, TeardownVxlan];
    assert EncapActivities(o) == all;
    assert all[1] in all && all[2] in all;
    if !Raises(all, o) {
      assert Collect(all, o) == [o(all[0]).result, o(all[1]).result, o(all[2]).result];
    }
  }

  /** The child has phases exactly when the run on the hosts returns; they are the
      setup's, the measurement's and the teardown's, and the status is the
      measurement's alone: refused deletions never show in it. */
  lemma ReturnsTogether(p: EncapPlan, o: Oracle, f: V.Fleet, ifaceA: string, ifaceB: string, c: V.Course)
    requires Agrees(p, o, f, EndA(p, ifaceA), EndB(p, ifaceB), c)
    ensures var t := V.RunEncap(f, EndA(p, ifaceA), EndB(p, ifaceB), p.vni, c);
            && (Results(EncapJob(p), o).Some? <==> t.returned)
            && (t.returned ==>
                  var phases := [o(SetupVxlan).result, o(Iperf3OverTunnel).result, o(TeardownVxlan).result];
                  && Results(EncapJob(p), o) == Some(phases)
                  && (Overall(phases) == Passed <==> c.measurement.passed))
  {
    if o(SetupVxlan).Raised? {
      RaisingSetup(p, o);
    } else {
      ThreeActivities(p, o);
    }
  }

  /** Under every schedule the child attempts the teardown exactly when the run on
      the hosts does, and crashes exactly when that run raises. */
  lemma EndsTogether(p: EncapPlan, o: Oracle, steps: seq<ChildRun.Step>, f: V.Fleet,
                     ifaceA: string, ifaceB: string, c: V.Course)
    requires p.maxAttempts >= 1 && Agrees(p, o, f, EndA(p, ifaceA), EndB(p, ifaceB), c)
    requires ChildRun.Run(EncapJob(p), o, steps).Some?
    requires ChildRun.Measured(ChildRun.Run(EncapJob(p), o, steps).value)
    ensures var t := V.RunEncap(f, EndA(p, ifaceA), EndB(p, ifaceB), p.vni, c);
            && (ChildRun.Attempted(EncapJob(p), o, steps, TeardownVxlan) <==> t.tornDown.Some?)
            && (ChildRun.Run(EncapJob(p), o, steps).value.Crashed? <==> !t.returned)
  {
    ReturnsTogether(p, o, f, ifaceA, ifaceB, c);
    ChildRun.TeardownAttempted(p, o, steps);
    ChildRun.ScheduleIndependence(EncapJob(p), o, steps);
  }
}
