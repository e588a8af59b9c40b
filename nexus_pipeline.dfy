/** The Nexus pipeline system: stages that transform a value, pipelines (JSON, CSV
    and stream adapters) that run their stages in order and count successful runs
    and errors, and a manager that feeds each pipeline's output to the next. The
    `last_duration` timing is not modelled. */
module NexusPipelines {
  import opened Wrappers
  import opened PyValues
  import Strings
  import Seqs

  /** A processing stage: the three built-in ones, or any other object with a
      `process` method, which may raise (an `Err` with the exception's text). */
  datatype Stage =
    | InputStage
    | TransformStage
    | OutputStage
    | OtherStage(run: Value -> Result<Value, string>)

  /** `{k: str(v).upper() for k, v in data.items()}`. */
  function UpperValues(entries: seq<Entry>): (r: seq<Entry>)
    ensures |r| == |entries|
    ensures forall i :: 0 <= i < |entries| ==> r[i] == Entry(entries[i].key, VStr(Strings.Upper(Str(entries[i].val))))
  {
    if entries == [] then []
    else [Entry(entries[0].key, VStr(Strings.Upper(Str(entries[0].val))))] + UpperValues(entries[1..])
  }

  /** One stage's `process`. */
  function Apply(stage: Stage, data: Value): Result<Value, string>
  {
    match stage
    case InputStage => Ok(VDict([Entry(VStr("input"), data)]))
    case TransformStage => Ok(if data.VDict? then VDict(UpperValues(data.entries)) else data)
    case OutputStage => Ok(VStr("OUTPUT -> " + Str(data)))
    case OtherStage(run) => run(data)
  }

  /** `_run_stages`: the data through the stages in order; the first exception
      stops the run. */
  function Run(stages: seq<Stage>, data: Value): Result<Value, string>
  {
    if stages == [] then Ok(data)
    else
      match Run(stages[..|stages| - 1], data)
      case Err(e) => Err(e)
      case Ok(d) => Apply(stages[|stages| - 1], d)
  }

  /** Running two lists of stages one after the other is running their
      concatenation; with no stages the run is the identity. */
  lemma {:induction false} RunAppend(a: seq<Stage>, b: seq<Stage>, data: Value)
    ensures Run([], data) == Ok(data)
    ensures Run(a + b, data) == match Run(a, data) case Err(e) => Err(e) case Ok(d) => Run(b, d)
    decreases |b|
  {
    if b == [] {
      assert a + b == a;
    } else {
      var b' := b[..|b| - 1];
      RunAppend(a, b', data);
      assert (a + b)[..|a + b| - 1] == a + b';
    }
  }

  /** The built-in stages never raise. */
  lemma BuiltInStagesSucceed(stages: seq<Stage>, data: Value)
    requires forall i :: 0 <= i < |stages| ==> !stages[i].OtherStage?
    ensures Run(stages, data).Ok?
  {
    if stages != [] {
      BuiltInStagesSucceed(stages[..|stages| - 1], data);
    }
  }

  datatype AdapterKind = JsonAdapter | CsvAdapter | StreamAdapter

  /** The value an adapter's `process` returns for the outcome of its stages: the
      JSON and CSV adapters tag it with their id, the stream adapter returns the raw
      result, or None after an error. */
  function Output(kind: AdapterKind, id: string, outcome: Result<Value, string>): (out: Value)
    ensures kind == JsonAdapter ==> out.VStr? && ("[JSON:" + id + "] ") <= out.s
    ensures kind == CsvAdapter ==> out.VStr? && ("[CSV:" + id + "] ") <= out.s
    ensures kind == StreamAdapter ==> out == (if outcome.Ok? then outcome.value else VNone)
  {
    var tag := match kind case JsonAdapter => "[JSON:" + id + "] " case CsvAdapter => "[CSV:" + id + "] " case StreamAdapter => "";
    match kind
    case StreamAdapter => if outcome.Ok? then outcome.value else VNone
    case _ => VStr(tag + (if outcome.Ok? then Str(outcome.value) else "ERROR: " + outcome.error))
  }

  class Pipeline {
    const kind: AdapterKind
    const pipelineId: string
    var stages: seq<Stage>
    var runs: nat
    var errors: nat

    /** A new pipeline has no stages, no runs and no errors. */
    constructor (kind: AdapterKind, pipelineId: string)
      ensures this.kind == kind && this.pipelineId == pipelineId
      ensures stages == [] && runs == 0 && errors == 0
    {
      this.kind := kind;
      this.pipelineId := pipelineId;
      stages := [];
      runs := 0;
      errors := 0;
    }

    /** `add_stage`: the stage goes last. */
    method AddStage(stage: Stage)
      modifies this
      ensures stages == old(stages) + [stage]
      ensures runs == old(runs) && errors == old(errors)
    {
      stages := stages + [stage];
    }

    /** The loop of `_run_stages`. */
    method RunStages(data: Value) returns (r: Result<Value, string>)
      ensures r == Run(stages, data)
    {
      var d := data;
      var i := 0;
      while i < |stages|
        invariant 0 <= i <= |stages|
        invariant Run(stages[..i], data) == Ok(d)
      {
        assert stages[..i + 1][..i] == stages[..i];
        var step := Apply(stages[i], d);
        if step.Err? {
          RunErrSticks(stages, data, i + 1);
          return step;
        }
        d := step.value;
        i := i + 1;
      }
      assert stages[..i] == stages;
      r := Ok(d);
    }

    /** The adapters' `process`: exactly one of the two counters goes up. */
    method Process(data: Value) returns (out: Value)
      modifies this
      ensures stages == old(stages)
      ensures Run(stages, data).Ok? ==> runs == old(runs) + 1 && errors == old(errors)
      ensures Run(stages, data).Err? ==> errors == old(errors) + 1 && runs == old(runs)
      ensures out == Output(kind, pipelineId, Run(stages, data))
    {
      var r := RunStages(data);
      if r.Ok? {
        runs := runs + 1;
      } else {
        errors := errors + 1;
      }
      out := Output(kind, pipelineId, r);
    }
  }

  /** Once a prefix of the stages raises, the whole run raises with the same error. */
  lemma {:induction false} RunErrSticks(stages: seq<Stage>, data: Value, n: nat)
    requires n <= |stages| && Run(stages[..n], data).Err?
    ensures Run(stages, data) == Run(stages[..n], data)
    decreases |stages| - n
  {
    if n < |stages| {
      assert stages[..n + 1][..n] == stages[..n];
      RunErrSticks(stages, data, n + 1);
    } else {
      assert stages[..n] == stages;
    }
  }

  /** What one pipeline makes of `data`. */
  function Outcome(p: Pipeline, data: Value): Value
    reads p`stages
  {
    Output(p.kind, p.pipelineId, Run(p.stages, data))
  }

  /** The value after the pipelines, each fed the previous one's output. */
  function Chain(ps: seq<Pipeline>, data: Value): Value
    reads (set p | p in ps)`stages
  {
    if ps == [] then data else Outcome(ps[|ps| - 1], Chain(ps[..|ps| - 1], data))
  }

  /** One step of `NexusManager.process`: the i-th pipeline takes the output of the
      ones before it; only its own counters move. */
  method RunOne(ps: seq<Pipeline>, i: nat, input: Value, ghost data: Value) returns (output: Value)
    requires i < |ps| && input == Chain(ps[..i], data)
    modifies ps[i]
    ensures output == Chain(ps[..i + 1], data)
    ensures forall p :: p in ps ==> p.stages == old(p.stages)
    ensures forall p :: p in ps ==> p.runs + p.errors == old(p.runs + p.errors) + (if p == ps[i] then 1 else 0)
  {
    assert ps[..i + 1][..i] == ps[..i];
    output := ps[i].Process(input);
  }

  datatype PipelineStats = PipelineStats(runs: nat, errors: nat)

  class NexusManager {
    var pipelines: seq<Pipeline>

    constructor ()
      ensures pipelines == []
    {
      pipelines := [];
    }

    method AddPipeline(p: Pipeline)
      modifies this
      ensures pipelines == old(pipelines) + [p]
    {
      pipelines := pipelines + [p];
    }

    /** `NexusManager.process`: the data through every pipeline in order (unchanged
        when there is none). A pipeline added k times runs k times. */
    method Process(data: Value) returns (result: Value)
      modifies set p | p in pipelines
      ensures result == Chain(pipelines, data)
      ensures forall p :: p in pipelines ==> p.stages == old(p.stages)
      ensures forall p :: p in pipelines ==> p.runs + p.errors == old(p.runs + p.errors) + multiset(pipelines)[p]
    {
      var ps := pipelines;
      result := data;
      var i := 0;
      while i < |ps|
        invariant 0 <= i <= |ps|
        invariant forall p :: p in ps ==> p.stages == old(p.stages)
        invariant forall p :: p in ps ==> p.runs + p.errors == old(p.runs + p.errors) + multiset(ps[..i])[p]
        invariant result == Chain(ps[..i], data)
      {
        Seqs.MultisetPrefix(ps, i);
        result := RunOne(ps, i, result, data);
        i := i + 1;
      }
      assert ps[..i] == ps;
    }

    /** `stats`: one entry per pipeline, in order. */
    function Stats(): (r: seq<PipelineStats>)
      reads this, set p | p in pipelines
      ensures |r| == |pipelines|
      ensures forall i :: 0 <= i < |pipelines| ==> r[i] == PipelineStats(pipelines[i].runs, pipelines[i].errors)
    {
      StatsOf(pipelines)
    }
  }

  function StatsOf(ps: seq<Pipeline>): (r: seq<PipelineStats>)
    reads set p | p in ps
    ensures |r| == |ps|
    ensures forall i :: 0 <= i < |ps| ==> r[i] == PipelineStats(ps[i].runs, ps[i].errors)
  {
    if ps == [] then [] else [PipelineStats(ps[0].runs, ps[0].errors)] + StatsOf(ps[1..])
  }

  /** The demonstration's JSON pipeline (input, then transform) wraps a text in a
      dict under "input" and upper-cases it, then tags it with the pipeline id. */
  lemma InputThenTransform(id: string, text: string)
    ensures Run([InputStage, TransformStage], VStr(text)) == Ok(VDict([Entry(VStr("input"), VStr(Strings.Upper(text)))]))
    ensures Output(JsonAdapter, id, Run([InputStage, TransformStage], VStr(text))) ==
      VStr("[JSON:" + id + "] " + Str(VDict([Entry(VStr("input"), VStr(Strings.Upper(text)))])))
  {
    var d := VDict([Entry(VStr("input"), VStr(text))]);
    assert [InputStage, TransformStage][..1] == [InputStage];
    assert [InputStage][..0] == [];
    assert Run([InputStage], VStr(text)) == Ok(d);
    assert UpperValues(d.entries) == [Entry(VStr("input"), VStr(Strings.Upper(text)))];
  }

  /** The demonstration's CSV pipeline (transform, then output) leaves a string as
      it is before the output stage prefixes it. */
  lemma TransformThenOutput(id: string, text: string)
    ensures Run([TransformStage, OutputStage], VStr(text)) == Ok(VStr("OUTPUT -> " + text))
    ensures Output(CsvAdapter, id, Run([TransformStage, OutputStage], VStr(text))) ==
      VStr("[CSV:" + id + "] " + ("OUTPUT -> " + text))
  {
    assert [TransformStage, OutputStage][..1] == [TransformStage];
    assert [TransformStage][..0] == [];
    assert Run([TransformStage], VStr(text)) == Ok(VStr(text));
    assert Str(VStr(text)) == text;
  }
}
