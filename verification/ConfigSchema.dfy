/** The validation models of the configuration file, section by section. */
module ConfigSchema {

  import opened ConfigMerge

  /** What the validator accepts for each kind of leaf, conversions included; lists
      are leaves, as the merge has it. */
  datatype Kinds<!V> = Kinds(
    text: V -> bool, whole: V -> bool, number: V -> bool, truth: V -> bool, texts: V -> bool, profiles: V -> bool)

  // ---- Fields and sections -------------------------------------------------------

  type Declared<!V> = seq<(string, Field<V>)>

  function Required<V>(accepts: V -> bool): Field<V> { Field(Scalar(accepts), true) }

  /** The fields of a model in declaration order, by name. */
  function Fields<V>(declared: Declared<V>): map<string, Field<V>> {
    if declared == [] then map[]
    else Fields(declared[..|declared| - 1])[declared[|declared| - 1].0 := declared[|declared| - 1].1]
  }

  /** A required section; it forbids unknown keys unless it tolerates extras. */
  function SectionOf<V>(declared: Declared<V>, allowExtra: bool): Field<V> {
    Field(Section(Fields(declared), allowExtra), true)
  }

  // ---- The configuration --------------------------------------------------------------

  /** The only field with a default: whether installation sets the mesh MTU. */
  function SetupFields<V>(v: Kinds<V>): Declared<V> {
    [("apt_packages", Required(v.texts)), ("ssh_connect_timeout_seconds", Required(v.whole)),
     ("set_mesh_mtu", Required(v.truth).(required := false))]
  }

  function StressCpuFields<V>(v: Kinds<V>): Declared<V> {
    [("duration_seconds", Required(v.whole)), ("workers", Required(v.whole))]
  }

  function StressMemoryFields<V>(v: Kinds<V>): Declared<V> {
    [("percent_of_total", Required(v.whole)), ("duration_seconds", Required(v.whole)), ("verify", Required(v.truth))]
  }

  function StressDiskFields<V>(v: Kinds<V>): Declared<V> {
    [("size", Required(v.text)), ("runtime_seconds", Required(v.whole)), ("ioengine", Required(v.text)),
     ("direct", Required(v.whole)), ("profiles", Required(v.profiles))]
  }

  function SysbenchFields<V>(v: Kinds<V>): Declared<V> {
    [("max_prime", Required(v.whole)), ("threads", Required(v.whole)), ("duration_seconds", Required(v.whole))]
  }

  function StressFields<V>(v: Kinds<V>): Declared<V> {
    [("cpu", SectionOf(StressCpuFields(v), false)), ("memory", SectionOf(StressMemoryFields(v), false)),
     ("disk_fio", SectionOf(StressDiskFields(v), false)), ("sysbench_cpu", SectionOf(SysbenchFields(v), false))]
  }

  function MeshFields<V>(v: Kinds<V>): Declared<V> {
    [("duration_seconds", Required(v.whole)), ("parallel_streams", Required(v.whole)), ("mtu", Required(v.whole)),
     ("verify_jumbo_frames", Required(v.truth)), ("min_throughput_gbps", Required(v.number)),
     ("max_retransmits", Required(v.whole))]
  }

  function EncapFields<V>(v: Kinds<V>): Declared<V> {
    [("tunnel_types", Required(v.texts)), ("duration_seconds", Required(v.whole)), ("compare_offload", Required(v.truth))]
  }

  function NetworkFields<V>(v: Kinds<V>): Declared<V> {
    [("mesh", SectionOf(MeshFields(v), false)), ("encapsulation", SectionOf(EncapFields(v), false))]
  }

  function ReportFields<V>(v: Kinds<V>): Declared<V> {
    [("fail_on_smart_error", Required(v.truth)), ("fail_on_memory_hw_error", Required(v.truth))]
  }

  function TimeoutsFields<V>(v: Kinds<V>): Declared<V> {
    [("setup", Required(v.whole)), ("hardware_probe", Required(v.whole)), ("stress_cpu", Required(v.whole)),
     ("stress_memory", Required(v.whole)), ("stress_disk_fio", Required(v.whole)), ("sysbench_cpu", Required(v.whole)),
     ("network_mesh", Required(v.whole)), ("encapsulation", Required(v.whole)), ("persist_results", Required(v.whole))]
  }

  function RetryFields<V>(v: Kinds<V>): Declared<V> {
    [("initial_interval_seconds", Required(v.whole)), ("backoff_coefficient", Required(v.number)),
     ("maximum_attempts", Required(v.whole))]
  }

  /** The timeouts alone tolerate unknown keys. */
  function TemporalFields<V>(v: Kinds<V>): Declared<V> {
    [("host", Required(v.text)), ("namespace", Required(v.text)), ("task_queue", Required(v.text)),
     ("timeouts_seconds", SectionOf(TimeoutsFields(v), true)), ("retry", SectionOf(RetryFields(v), false))]
  }

  function WorkerFields<V>(v: Kinds<V>): Declared<V> {
    [("max_concurrent_activities", Required(v.whole)), ("max_concurrent_workflow_tasks", Required(v.whole))]
  }

  function DatabaseFields<V>(v: Kinds<V>): Declared<V> {
    [("schema", Required(v.text)), ("pool_min_size", Required(v.whole)), ("pool_max_size", Required(v.whole))]
  }

  function BmtFields<V>(v: Kinds<V>): Declared<V> {
    [("setup", SectionOf(SetupFields(v), false)), ("stress", SectionOf(StressFields(v), false)),
     ("network", SectionOf(NetworkFields(v), false)), ("report", SectionOf(ReportFields(v), false)),
     ("temporal", SectionOf(TemporalFields(v), false)), ("worker", SectionOf(WorkerFields(v), false)),
     ("database", SectionOf(DatabaseFields(v), false))]
  }

  function BmtSchema<V>(v: Kinds<V>): Schema<V> { SectionOf(BmtFields(v), false).schema }

  // ---- Only leaves have defaults ----------------------------------------------------------

  /** A leaf, or a required section in which only leaves have defaults. */
  predicate Sound<V>(f: Field<V>) {
    f.schema.Scalar? || (f.required && OptionalFieldsAreLeaves(f.schema))
  }

  lemma {:induction false} SectionIsSound<V>(declared: Declared<V>, allowExtra: bool)
    requires forall d | d in declared :: Sound(d.1)
    ensures Sound(SectionOf(declared, allowExtra)) && OptionalFieldsAreLeaves(SectionOf(declared, allowExtra).schema)
  {
    if declared != [] {
      var init, last := declared[..|declared| - 1], declared[|declared| - 1];
      assert last in declared && forall d | d in init :: d in declared;
      SectionIsSound(init, allowExtra);
    }
  }

  lemma StressIsSound<V>(v: Kinds<V>)
    ensures Sound(SectionOf(StressFields(v), false))
  {
    SectionIsSound(StressCpuFields(v), false);
    SectionIsSound(StressMemoryFields(v), false);
    SectionIsSound(StressDiskFields(v), false);
    SectionIsSound(SysbenchFields(v), false);
    SectionIsSound(StressFields(v), false);
  }

  lemma NetworkIsSound<V>(v: Kinds<V>)
    ensures Sound(SectionOf(NetworkFields(v), false))
  {
    SectionIsSound(MeshFields(v), false);
    SectionIsSound(EncapFields(v), false);
    SectionIsSound(NetworkFields(v), false);
  }

  lemma TimeoutsAreSound<V>(v: Kinds<V>)
    ensures Sound(SectionOf(TimeoutsFields(v), true))
  {
    assert forall d | d in TimeoutsFields(v) :: d.1 == Required(v.whole);
    SectionIsSound(TimeoutsFields(v), true);
  }

  lemma TemporalIsSound<V>(v: Kinds<V>)
    ensures Sound(SectionOf(TemporalFields(v), false))
  {
    TimeoutsAreSound(v);
    SectionIsSound(RetryFields(v), false);
    ConnectionIsSound(Required(v.text), SectionOf(TimeoutsFields(v), true), SectionOf(RetryFields(v), false));
  }

  lemma ConnectionIsSound<V>(text: Field<V>, timeouts: Field<V>, retry: Field<V>)
    requires Sound(text) && Sound(timeouts) && Sound(retry)
    ensures Sound(SectionOf([("host", text), ("namespace", text), ("task_queue", text),
                         ("timeouts_seconds", timeouts), ("retry", retry)], false))
  {
    var declared := [("host", text), ("namespace", text), ("task_queue", text),
                     ("timeouts_seconds", timeouts), ("retry", retry)];
    SectionIsSound(declared, false);
  }

  lemma SmallSectionsAreSound<V>(v: Kinds<V>)
    ensures Sound(SectionOf(SetupFields(v), false)) && Sound(SectionOf(ReportFields(v), false))
    ensures Sound(SectionOf(WorkerFields(v), false)) && Sound(SectionOf(DatabaseFields(v), false))
  {
    SectionIsSound(SetupFields(v), false);
    SectionIsSound(ReportFields(v), false);
    SectionIsSound(WorkerFields(v), false);
    SectionIsSound(DatabaseFields(v), false);
  }

  lemma TopLevelIsSound<V>(setup: Field<V>, stress: Field<V>, network: Field<V>, report: Field<V>,
                           temporal: Field<V>, worker: Field<V>, database: Field<V>)
    requires Sound(setup) && Sound(stress) && Sound(network) && Sound(report)
    requires Sound(temporal) && Sound(worker) && Sound(database)
    ensures OptionalFieldsAreLeaves(
              SectionOf([("setup", setup), ("stress", stress), ("network", network), ("report", report),
                     ("temporal", temporal), ("worker", worker), ("database", database)], false).schema)
  {
    var declared := [("setup", setup), ("stress", stress), ("network", network), ("report", report),
                     ("temporal", temporal), ("worker", worker), ("database", database)];
    SectionIsSound(declared, false);
  }

  /** In the configuration's own models only leaves have defaults. */
  lemma ConfigurationOptionalsAreLeaves<V>(v: Kinds<V>)
    ensures OptionalFieldsAreLeaves(BmtSchema(v))
  {
    SmallSectionsAreSound(v);
    StressIsSound(v);
    NetworkIsSound(v);
    TemporalIsSound(v);
    TopLevelIsSound(SectionOf(SetupFields(v), false), SectionOf(StressFields(v), false),
                    SectionOf(NetworkFields(v), false), SectionOf(ReportFields(v), false),
                    SectionOf(TemporalFields(v), false), SectionOf(WorkerFields(v), false),
                    SectionOf(DatabaseFields(v), false));
  }

  /** So a complete configuration file stays complete and well typed under any
      chain of well-typed partial overrides. */
  lemma OverridesKeepConfiguration<V>(v: Kinds<V>, base: Tree<V>, overs: seq<Tree<V>>)
    requires Conforms(base, BmtSchema(v), true) && forall o | o in overs :: Conforms(o, BmtSchema(v), false)
    ensures Conforms(MergeAll(base, overs), BmtSchema(v), true)
  {
    ConfigurationOptionalsAreLeaves(v);
    MergeAllPreservesSchema(base, overs, BmtSchema(v));
  }
}
