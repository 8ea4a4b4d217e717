/** The state store: the in-memory plotter state, its durable copy, the
    default state built from configuration, the merge of a loaded document
    with configuration, and the mutex that runs the store's operations one
    at a time in the order they were requested. */
module StateStore {
  import opened Wrappers
  import opened Config
  import opened Types

  /* ---------- Default state and merge with configuration ---------- */

  /** The row a configured row gets on fresh paper. */
  function DefaultRow(g: Geometry, rc: RowConfig): RowState {
    RowState(RowStartX(g, rc), rc.y, 0)
  }

  /** The state `createDefaultState` builds, stated as a value. */
  function DefaultState(cfg: AppConfig): (r: PlotterState)
    ensures r.rows.Keys == cfg.rows.byId.Keys
    ensures forall id :: id in r.rows ==> r.rows[id].pendingStrokes == 0 && r.rows[id].y == cfg.rows.byId[id].y
    ensures !r.paperRun.needsNewPaper
  {
    PlotterState(
      map id | id in cfg.rows.byId :: DefaultRow(cfg.plotter, cfg.rows.byId[id]),
      PaperRunState(false))
  }

  /** `createDefaultState`: one row per configured row id, at its start
      offset, at its configured `y`, with no demand; paper not exhausted. */
  method CreateDefaultState(cfg: AppConfig) returns (s: PlotterState)
    ensures s.rows.Keys == cfg.rows.byId.Keys
    ensures forall id :: id in s.rows ==>
      s.rows[id] == RowState(RowStartX(cfg.plotter, cfg.rows.byId[id]), cfg.rows.byId[id].y, 0)
    ensures !s.paperRun.needsNewPaper
    ensures s == DefaultState(cfg)
  {
    var order := cfg.rows.order;
    var rows: map<string, RowState> := map[];
    var i := 0;
    while i < |order|
      invariant 0 <= i <= |order|
      invariant forall id :: id in rows <==> id in order[..i]
      invariant forall id :: id in rows ==> rows[id] == DefaultRow(cfg.plotter, cfg.rows.byId[id])
    {
      rows := rows[order[i] := DefaultRow(cfg.plotter, cfg.rows.byId[order[i]])];
      i := i + 1;
    }
    assert order[..i] == order;
    s := PlotterState(rows, PaperRunState(false));
  }

  /** The row a configured row gets on merge: the loaded `x` and demand when
      the row was in the document, the configured `y` in any case. */
  function MergedRow(existing: Option<RowState>, g: Geometry, rc: RowConfig): RowState {
    match existing
    case Some(row) => RowState(row.x, rc.y, row.pendingStrokes)
    case None => DefaultRow(g, rc)
  }

  function Lookup(rows: map<string, RowState>, id: string): Option<RowState> {
    if id in rows then Some(rows[id]) else None
  }

  /** The state `mergeStateWithConfig` returns: configured rows keep their
      loaded `x` and demand and take `y` from configuration; configured rows
      the document lacks get the default row; rows only in the document are
      kept as they are; the paper flag is kept. */
  function Merged(s: PlotterState, cfg: AppConfig): (r: PlotterState)
    ensures r.rows.Keys == s.rows.Keys + cfg.rows.byId.Keys
    ensures forall id :: id in cfg.rows.byId && id in s.rows ==>
      r.rows[id] == RowState(s.rows[id].x, cfg.rows.byId[id].y, s.rows[id].pendingStrokes)
    ensures forall id :: id in cfg.rows.byId && id !in s.rows ==>
      r.rows[id] == DefaultRow(cfg.plotter, cfg.rows.byId[id])
    ensures forall id :: id in s.rows && id !in cfg.rows.byId ==> r.rows[id] == s.rows[id]
    ensures r.paperRun == s.paperRun
  {
    PlotterState(
      map id | id in s.rows.Keys + cfg.rows.byId.Keys ::
        if id in cfg.rows.byId then MergedRow(Lookup(s.rows, id), cfg.plotter, cfg.rows.byId[id])
        else s.rows[id],
      s.paperRun)
  }

  /** `mergeStateWithConfig`: for each configured row in order, merge it
      into a copy of the loaded rows. */
  method MergeStateWithConfig(s: PlotterState, cfg: AppConfig) returns (r: PlotterState)
    ensures r == Merged(s, cfg)
  {
    var order := cfg.rows.order;
    var rows := s.rows;
    var i := 0;
    while i < |order|
      invariant 0 <= i <= |order|
      invariant forall id :: id in rows <==> id in s.rows || id in order[..i]
      invariant forall id :: id in rows ==>
        rows[id] == if id in order[..i] then MergedRow(Lookup(s.rows, id), cfg.plotter, cfg.rows.byId[id]) else s.rows[id]
    {
      var id := order[i];
      assert id !in order[..i];
      var existing := Lookup(rows, id);
      rows := rows[id := MergedRow(existing, cfg.plotter, cfg.rows.byId[id])];
      assert order[..i + 1] == order[..i] + [id];
      i := i + 1;
    }
    assert order[..i] == order;
    assert rows == Merged(s, cfg).rows;
    r := PlotterState(rows, s.paperRun);
  }

  /** A state is shaped by the configuration when every configured row is
      present and sits at its configured `y`. */
  ghost predicate ConfigShaped(s: PlotterState, cfg: AppConfig) {
    forall id :: id in cfg.rows.byId ==> id in s.rows && s.rows[id].y == cfg.rows.byId[id].y
  }

  /** A configuration-shaped state is left alone by the merge: reloading what
      the store persisted gives back exactly that state. */
  lemma MergeFixesShaped(s: PlotterState, cfg: AppConfig)
    requires ConfigShaped(s, cfg)
    ensures Merged(s, cfg) == s
  {
    var m := Merged(s, cfg);
    assert m.rows.Keys == s.rows.Keys;
    forall id | id in s.rows ensures m.rows[id] == s.rows[id] {
    }
  }

  /** Every merge result is shaped by the configuration, so merging twice is
      merging once. */
  lemma MergeIdempotent(s: PlotterState, cfg: AppConfig)
    ensures ConfigShaped(Merged(s, cfg), cfg)
    ensures Merged(Merged(s, cfg), cfg) == Merged(s, cfg)
  {
    MergeFixesShaped(Merged(s, cfg), cfg);
  }

  /** The default state is shaped by the configuration and has exactly its
      rows. */
  lemma DefaultShaped(cfg: AppConfig)
    ensures ConfigShaped(DefaultState(cfg), cfg)
    ensures DefaultState(cfg).rows.Keys == cfg.rows.byId.Keys
  {
  }

  /* ---------- The durable document ---------- */

  /** A row as JSON carries numbers; the schema demands a non-negative
      integer demand. */
  datatype DocRow = DocRow(x: real, y: real, pendingStrokes: real)

  /** A parsed JSON document of the expected shape; `paperRun` may be
      missing. */
  datatype Document = Document(rows: map<string, DocRow>, paperRun: Option<bool>)

  /** Reading the state file: it is missing or unreadable or not JSON of the
      expected shape, or it is a document. */
  datatype ReadOutcome = ReadFailed | Read(doc: Document)

  predicate IsCount(v: real) {
    v >= 0.0 && v.Floor as real == v
  }

  /** The schema check of a document: every demand a non-negative integer
      and the paper flag present. */
  function Validate(read: ReadOutcome): (r: Option<PlotterState>)
    ensures r.Some? <==>
      && read.Read?
      && read.doc.paperRun.Some?
      && forall id :: id in read.doc.rows ==> IsCount(read.doc.rows[id].pendingStrokes)
    ensures r.Some? ==>
      && r.value.rows.Keys == read.doc.rows.Keys
      && r.value.paperRun.needsNewPaper == read.doc.paperRun.value
      && forall id :: id in r.value.rows ==>
           var d := read.doc.rows[id];
           r.value.rows[id].x == d.x && r.value.rows[id].y == d.y
           && r.value.rows[id].pendingStrokes as real == d.pendingStrokes
  {
    if read.ReadFailed? || read.doc.paperRun.None? then None
    else if forall id :: id in read.doc.rows ==> IsCount(read.doc.rows[id].pendingStrokes) then
      var rows := map id | id in read.doc.rows ::
        var d := read.doc.rows[id]; RowState(d.x, d.y, d.pendingStrokes.Floor);
      Some(PlotterState(rows, PaperRunState(read.doc.paperRun.value)))
    else None
  }

  /** What the store writes: the state as a JSON document. */
  function ToDocument(s: PlotterState): Document {
    Document(
      map id | id in s.rows :: DocRow(s.rows[id].x, s.rows[id].y, s.rows[id].pendingStrokes as real),
      Some(s.paperRun.needsNewPaper))
  }

  /** What the store writes, it reads back unchanged. */
  lemma {:induction false} DocumentRoundTrip(s: PlotterState)
    ensures Validate(Read(ToDocument(s))) == Some(s)
  {
    var d := ToDocument(s);
    forall id | id in d.rows ensures IsCount(d.rows[id].pendingStrokes) {
      assert (s.rows[id].pendingStrokes as real).Floor == s.rows[id].pendingStrokes;
    }
    var p := Validate(Read(d)).value;
    assert p.rows.Keys == s.rows.Keys;
    forall id | id in s.rows ensures p.rows[id] == s.rows[id] {
      assert (p.rows[id].pendingStrokes as real) == (s.rows[id].pendingStrokes as real);
    }
    assert p.rows == s.rows;
  }

  /* ---------- The store's three operations ---------- */

  datatype StoreError = NotInitialized | WriteFailed

  type Reply = Result<PlotterState, StoreError>

  /** The store's value: the in-memory state (none before the first load)
      and the last document it wrote successfully (none yet). Writing is
      atomic: a failed write leaves the previous document in place. */
  datatype Store = Store(state: Option<PlotterState>, durable: Option<PlotterState>)

  /** `atomicWrite` of `s`, which succeeded or failed. */
  function Persist(st: Store, s: PlotterState, writeOk: bool): Store {
    Store(Some(s), if writeOk then Some(s) else st.durable)
  }

  /** `loadOrCreate`: a valid document is merged with configuration and
      becomes the state, without being written back; otherwise the supplied
      default becomes the state and is written. */
  function LoadSpec(st: Store, cfg: AppConfig, read: ReadOutcome, dflt: PlotterState, writeOk: bool)
    : (r: (Store, Reply))
    ensures r.0.state.Some?
    ensures r.1.Success? ==> r.0.state == Some(r.1.value)
    ensures Validate(read).Some? ==> r.1.Success? && r.0.durable == st.durable
    ensures Validate(read).Some? ==>
      r.0.state == Some(Merged(Validate(read).value, cfg)) && r.1 == Success(Merged(Validate(read).value, cfg))
    ensures r.1.Failure? <==> Validate(read).None? && !writeOk
  {
    match Validate(read)
    case Some(parsed) =>
      var merged := Merged(parsed, cfg);
      (st.(state := Some(merged)), Success(merged))
    case None =>
      (Persist(st, dflt, writeOk), if writeOk then Success(dflt) else Failure(WriteFailed))
  }

  /** `getState`: a copy of the state, or "state not initialized". */
  function GetSpec(st: Store): (r: Reply)
    ensures r.Success? <==> st.state.Some?
    ensures r.Success? ==> st.state == Some(r.value)
    ensures r.Failure? ==> r.error == NotInitialized
  {
    match st.state
    case None => Failure(NotInitialized)
    case Some(s) => Success(s)
  }

  /** `update`: before any load it fails and changes nothing; otherwise the
      mutator's result becomes the state even when writing it fails, and the
      caller gets that state or the write error. */
  function UpdateSpec(st: Store, mutator: PlotterState -> PlotterState, writeOk: bool): (r: (Store, Reply))
    ensures st.state.None? ==> r == (st, Failure(NotInitialized))
    ensures st.state.Some? ==> r.0.state == Some(mutator(st.state.value))
    ensures r.1.Success? <==> st.state.Some? && writeOk
    ensures r.1.Success? ==> r.0.durable == r.0.state && r.0.state == Some(r.1.value)
    ensures !writeOk ==> r.0.durable == st.durable
  {
    match st.state
    case None => (st, Failure(NotInitialized))
    case Some(s) =>
      var next := mutator(s);
      (Persist(st, next, writeOk), if writeOk then Success(next) else Failure(WriteFailed))
  }

  /** When the document cannot be used, the store holds the default state,
      and on a successful write the file holds it too. */
  lemma LoadFallsBackToDefault(st: Store, cfg: AppConfig, read: ReadOutcome, dflt: PlotterState, writeOk: bool)
    requires Validate(read).None?
    ensures LoadSpec(st, cfg, read, dflt, writeOk).0.state == Some(dflt)
    ensures writeOk ==> LoadSpec(st, cfg, read, dflt, writeOk) == (Store(Some(dflt), Some(dflt)), Success(dflt))
  {
  }

  /** A restart reads back what the store last wrote: if the state was
      shaped by the configuration, the reloaded state is exactly it. */
  lemma {:induction false} RestartRestoresDurable(st: Store, cfg: AppConfig, dflt: PlotterState, writeOk: bool)
    requires st.durable.Some? && ConfigShaped(st.durable.value, cfg)
    ensures var (st', r) := LoadSpec(Store(None, st.durable), cfg, Read(ToDocument(st.durable.value)), dflt, writeOk);
            st'.state == st.durable && r == Success(st.durable.value)
  {
    DocumentRoundTrip(st.durable.value);
    MergeFixesShaped(st.durable.value, cfg);
  }

  /* ---------- The mutex: a FIFO queue of tasks ---------- */

  /** A call waiting for the mutex, with what the environment will answer
      to its I/O (the file read, whether the write succeeds). */
  datatype Task =
    | LoadTask(read: ReadOutcome, dflt: PlotterState, loadWriteOk: bool)
    | GetTask
    | UpdateTask(mutator: PlotterState -> PlotterState, writeOk: bool)

  function RunTask(st: Store, cfg: AppConfig, t: Task): (Store, Reply) {
    match t
    case LoadTask(read, dflt, w) => LoadSpec(st, cfg, read, dflt, w)
    case GetTask => (st, GetSpec(st))
    case UpdateTask(m, w) => UpdateSpec(st, m, w)
  }

  /** Running queued tasks one at a time in order: each task sees the store
      exactly as the previous one left it, and every task runs and gets a
      reply, whether or not an earlier one failed. */
  function RunTasks(st: Store, cfg: AppConfig, tasks: seq<Task>): (res: (Store, seq<Reply>))
    ensures |res.1| == |tasks|
    ensures tasks != [] ==> res.1[0] == RunTask(st, cfg, tasks[0]).1
    decreases |tasks|
  {
    if tasks == [] then (st, [])
    else
      var (st1, r) := RunTask(st, cfg, tasks[0]);
      var (st2, rs) := RunTasks(st1, cfg, tasks[1..]);
      (st2, [r] + rs)
  }

  /** A queue of one task runs just that task. */
  lemma RunOneTask(st: Store, cfg: AppConfig, t: Task)
    ensures RunTasks(st, cfg, [t]) == (RunTask(st, cfg, t).0, [RunTask(st, cfg, t).1])
  {
    assert [t][1..] == [];
    assert [RunTask(st, cfg, t).1] + [] == [RunTask(st, cfg, t).1];
  }

  /** Running a queue in two parts is running it whole. */
  lemma {:induction false} RunTasksAppend(st: Store, cfg: AppConfig, a: seq<Task>, b: seq<Task>)
    ensures RunTasks(st, cfg, a + b).0 == RunTasks(RunTasks(st, cfg, a).0, cfg, b).0
    ensures RunTasks(st, cfg, a + b).1 == RunTasks(st, cfg, a).1 + RunTasks(RunTasks(st, cfg, a).0, cfg, b).1
    decreases |a|
  {
    if a == [] {
      assert a + b == b;
    } else {
      assert (a + b)[0] == a[0];
      assert (a + b)[1..] == a[1..] + b;
      var st1 := RunTask(st, cfg, a[0]).0;
      var r := RunTask(st, cfg, a[0]).1;
      RunTasksAppend(st1, cfg, a[1..], b);
      var ra := RunTasks(st1, cfg, a[1..]).1;
      var rb := RunTasks(RunTasks(st1, cfg, a[1..]).0, cfg, b).1;
      assert RunTasks(st, cfg, a + b).1 == [r] + (ra + rb);
      assert RunTasks(st, cfg, a).1 == [r] + ra;
      assert [r] + (ra + rb) == ([r] + ra) + rb;
    }
  }

  /** No lost updates: `n` queued updates that each add one stroke to a
      present row, whatever the outcome of their writes, raise its demand by
      exactly `n` and change nothing else. */
  lemma {:induction false} NoLostUpdates(st: Store, cfg: AppConfig, tasks: seq<Task>, rowId: string)
    requires st.state.Some? && rowId in st.state.value.rows
    requires forall i :: 0 <= i < |tasks| ==> tasks[i].UpdateTask?
    requires forall i, s: PlotterState :: 0 <= i < |tasks| && rowId in s.rows ==>
      tasks[i].mutator(s) == s.(rows := s.rows[rowId := s.rows[rowId].(pendingStrokes := s.rows[rowId].pendingStrokes + 1)])
    ensures var fin := RunTasks(st, cfg, tasks).0;
      && fin.state.Some?
      && fin.state.value.rows.Keys == st.state.value.rows.Keys
      && fin.state.value.rows[rowId].pendingStrokes == st.state.value.rows[rowId].pendingStrokes + |tasks|
      && fin.state.value.rows[rowId].x == st.state.value.rows[rowId].x
      && fin.state.value.paperRun == st.state.value.paperRun
      && forall id :: id in fin.state.value.rows && id != rowId ==> fin.state.value.rows[id] == st.state.value.rows[id]
    decreases |tasks|
  {
    if tasks != [] {
      var s := st.state.value;
      var st1 := RunTask(st, cfg, tasks[0]).0;
      assert st1.state == Some(tasks[0].mutator(s));
      NoLostUpdates(st1, cfg, tasks[1..], rowId);
    }
  }

  /* ---------- The store object ---------- */

  class StateStore {
    const config: AppConfig
    var state: Option<PlotterState>
    var durable: Option<PlotterState>
    /** Calls waiting for the mutex, oldest first. */
    var queue: seq<Task>
    /** Replies of the calls the mutex has run, in the order they ran. */
    var replies: seq<Reply>

    function Abs(): Store
      reads this
    {
      Store(state, durable)
    }

    constructor (config: AppConfig)
      ensures this.config == config
      ensures state.None? && durable.None? && queue == [] && replies == []
    {
      this.config := config;
      state, durable := None, None;
      queue, replies := [], [];
    }

    /** The body of `loadOrCreate`, run while holding the mutex. */
    method LoadOrCreate(read: ReadOutcome, dflt: PlotterState, writeOk: bool) returns (r: Reply)
      modifies this`state, this`durable
      ensures (Abs(), r) == LoadSpec(old(Abs()), config, read, dflt, writeOk)
    {
      var parsed := Validate(read);
      if parsed.Some? {
        var merged := MergeStateWithConfig(parsed.value, config);
        state := Some(merged);
        r := Success(merged);
      } else {
        state := Some(dflt);
        if writeOk {
          durable := Some(dflt);
          r := Success(dflt);
        } else {
          r := Failure(WriteFailed);
        }
      }
    }

    /** The body of `getState`, run while holding the mutex. */
    method GetState() returns (r: Reply)
      ensures r.Success? <==> state.Some?
      ensures r.Success? ==> r.value == state.value
      ensures r.Failure? ==> r.error == NotInitialized
    {
      if state.None? {
        r := Failure(NotInitialized);
      } else {
        r := Success(state.value);
      }
    }

    /** The body of `update`, run while holding the mutex. */
    method Update(mutator: PlotterState -> PlotterState, writeOk: bool) returns (r: Reply)
      modifies this`state, this`durable
      ensures (Abs(), r) == UpdateSpec(old(Abs()), mutator, writeOk)
    {
      if state.None? {
        r := Failure(NotInitialized);
        return;
      }
      var next := mutator(state.value);
      state := Some(next);
      if writeOk {
        durable := Some(next);
        r := Success(next);
      } else {
        r := Failure(WriteFailed);
      }
    }

    /** `runExclusive`: the call joins the end of the queue. */
    method Submit(t: Task)
      modifies this`queue
      ensures queue == old(queue) + [t]
    {
      queue := queue + [t];
    }

    /** Several calls reach the mutex, in the order given. */
    method SubmitAll(ts: seq<Task>)
      modifies this`queue
      ensures queue == old(queue) + ts
    {
      queue := queue + ts;
    }

    /** One call holding the mutex: the body of the method it names. */
    method Run(t: Task) returns (r: Reply)
      modifies this`state, this`durable
      ensures (Abs(), r) == RunTask(old(Abs()), config, t)
    {
      match t {
        case LoadTask(read, dflt, w) => r := LoadOrCreate(read, dflt, w);
        case GetTask => r := GetState();
        case UpdateTask(m, w) => r := Update(m, w);
      }
    }

    /** The mutex drains its queue: each task runs to completion before the
      next starts, in the order they were submitted. */
    method RunQueued()
      modifies this
      ensures queue == []
      ensures Abs() == RunTasks(old(Abs()), config, old(queue)).0
      ensures replies == old(replies) + RunTasks(old(Abs()), config, old(queue)).1
    {
      ghost var st0 := Abs();
      ghost var q0 := queue;
      ghost var done: seq<Task> := [];
      while queue != []
        invariant q0 == done + queue
        invariant Abs() == RunTasks(st0, config, done).0
        invariant replies == old(replies) + RunTasks(st0, config, done).1
        decreases |queue|
      {
        var t := queue[0];
        ghost var before := Abs();
        var r := Run(t);
        RunOneTask(before, config, t);
        RunTasksAppend(st0, config, done, [t]);
        replies := replies + [r];
        done := done + [t];
        queue := queue[1..];
      }
      assert done == q0;
    }
  }
}
