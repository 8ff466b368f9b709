/** An independent description of what `renderLoop`
    (internal/renderer/renderer.go:73-100) computes, and lemmas tying the
    fuel-bounded `Renderer.RenderLoop` to it. `Run(i)` is the (i+1)-th
    execution of the unstopped loop: the first runs the template body, each
    later one runs the previous output. The loop stops at the first execution
    that fails or whose output equals the one before it, where the output
    "before" the first execution is the empty string. */
module FixedPoint {
  import opened Renderer

  /** The (i+1)-th execution of the loop, had it not stopped; a failure is
      carried forward unchanged. */
  function Run(engine: Engine, r: Renderer, i: nat): Step
    decreases i
  {
    if i == 0 then engine(r.tmplStr, r.vars, r.funcs)
    else
      var before := Run(engine, r, i - 1);
      if before.Output? then engine(before.text, r.vars, r.funcs) else before
  }

  /** The output execution i is compared against: "" before the first. */
  function Previous(engine: Engine, r: Renderer, i: nat): string
  {
    if i == 0 then "" else
      var before := Run(engine, r, i - 1);
      if before.Output? then before.text else ""
  }

  /** The body execution i runs. */
  function Input(engine: Engine, r: Renderer, i: nat): string
  {
    if i == 0 then r.tmplStr else Previous(engine, r, i)
  }

  /** Execution i succeeds and changes the output: the loop goes on. */
  predicate Continues(engine: Engine, r: Renderer, i: nat)
  {
    Run(engine, r, i).Output? && Run(engine, r, i).text != Previous(engine, r, i)
  }

  /** Execution i succeeds and repeats the previous output: the loop stops. */
  predicate StopsAt(engine: Engine, r: Renderer, i: nat)
  {
    Run(engine, r, i).Output? && Run(engine, r, i).text == Previous(engine, r, i)
  }

  predicate ContinuesFrom(engine: Engine, r: Renderer, lo: nat, hi: nat)
  {
    forall j :: lo <= j < hi ==> Continues(engine, r, j)
  }

  /** Once the first i executions all continued, execution i runs `Input(i)`. */
  lemma {:induction false} RunIsStep(engine: Engine, r: Renderer, i: nat)
    requires ContinuesFrom(engine, r, 0, i)
    ensures Run(engine, r, i) == engine(Input(engine, r, i), r.vars, r.funcs)
  {
    if i > 0 {
      assert Continues(engine, r, i - 1);
    }
  }

  /** The loop started in the state reached after i continuing executions
      converges, fails or runs out of fuel exactly as the trace says. */
  lemma {:induction false} IterateFrom(engine: Engine, r: Renderer, i: nat, fuel: nat)
    requires ContinuesFrom(engine, r, 0, i)
    ensures var out := Iterate(engine, r.vars, r.funcs, Previous(engine, r, i), Input(engine, r, i), i, fuel);
      && (out.Converged? <==>
            exists s :: i <= s < i + fuel && StopsAt(engine, r, s) && ContinuesFrom(engine, r, i, s))
      && (out.Converged? ==>
            && StopsAt(engine, r, out.executions - 1)
            && ContinuesFrom(engine, r, i, out.executions - 1)
            && out.text == Run(engine, r, out.executions - 1).text)
      && (out.LoopFailed? <==>
            exists k :: i <= k < i + fuel && !Run(engine, r, k).Output? && ContinuesFrom(engine, r, i, k))
      && (out.LoopFailed? ==>
            exists k :: i <= k < i + fuel && !Run(engine, r, k).Output? && ContinuesFrom(engine, r, i, k)
                        && out.err == StepError(Run(engine, r, k)))
      && (out.LoopOutOfFuel? <==> ContinuesFrom(engine, r, i, i + fuel))
    decreases fuel
  {
    var out := Iterate(engine, r.vars, r.funcs, Previous(engine, r, i), Input(engine, r, i), i, fuel);
    if fuel == 0 {
      assert out == LoopOutOfFuel;
    } else {
      RunIsStep(engine, r, i);
      var step := Run(engine, r, i);
      if !step.Output? {
        assert out == LoopFailed(StepError(step));
        assert ContinuesFrom(engine, r, i, i);
        assert !Continues(engine, r, i);
      } else if Previous(engine, r, i) == step.text {
        assert out == Converged(step.text, i + 1);
        assert StopsAt(engine, r, i) && ContinuesFrom(engine, r, i, i);
        assert i <= i < i + fuel;
        assert !Continues(engine, r, i);
      } else {
        assert Continues(engine, r, i);
        assert ContinuesFrom(engine, r, 0, i + 1);
        assert Previous(engine, r, i + 1) == step.text;
        assert Input(engine, r, i + 1) == step.text;
        assert out == Iterate(engine, r.vars, r.funcs, Previous(engine, r, i + 1), Input(engine, r, i + 1), i + 1, fuel - 1);
        IterateFrom(engine, r, i + 1, fuel - 1);
        assert !StopsAt(engine, r, i);
        forall s | i <= s < i + fuel
          ensures (StopsAt(engine, r, s) && ContinuesFrom(engine, r, i, s)) <==>
                  (i + 1 <= s && StopsAt(engine, r, s) && ContinuesFrom(engine, r, i + 1, s))
        {
        }
        forall k | i <= k < i + fuel
          ensures (!Run(engine, r, k).Output? && ContinuesFrom(engine, r, i, k)) <==>
                  (i + 1 <= k && !Run(engine, r, k).Output? && ContinuesFrom(engine, r, i + 1, k))
        {
        }
      }
    }
  }

  /** At most one execution can be the first to stop or fail. */
  lemma FirstStopIsUnique(engine: Engine, r: Renderer, s: nat, t: nat)
    requires ContinuesFrom(engine, r, 0, s) && !Continues(engine, r, s)
    requires ContinuesFrom(engine, r, 0, t) && !Continues(engine, r, t)
    ensures s == t
  {
  }

  /** `renderLoop` returns `o` after k executions exactly when the k-th
      execution is the first to repeat its predecessor's output and produces
      `o`, no execution before it having failed. */
  lemma LoopConvergesIff(engine: Engine, r: Renderer, fuel: nat, o: string, k: nat)
    ensures RenderLoop(r, engine, fuel) == Converged(o, k) <==>
      && 1 <= k <= fuel
      && ContinuesFrom(engine, r, 0, k - 1)
      && StopsAt(engine, r, k - 1)
      && Run(engine, r, k - 1) == Output(o)
  {
    IterateFrom(engine, r, 0, fuel);
    var out := RenderLoop(r, engine, fuel);
    if 1 <= k <= fuel && ContinuesFrom(engine, r, 0, k - 1) && StopsAt(engine, r, k - 1)
       && Run(engine, r, k - 1) == Output(o) {
      assert out.Converged?;
      FirstStopIsUnique(engine, r, out.executions - 1, k - 1);
    }
  }

  /** `renderLoop` fails with error e exactly when some execution fails with
      e and every execution before it produced a new output. */
  lemma LoopFailsIff(engine: Engine, r: Renderer, fuel: nat, e: Error)
    ensures RenderLoop(r, engine, fuel) == LoopFailed(e) <==>
      exists s :: 0 <= s < fuel && ContinuesFrom(engine, r, 0, s)
                  && !Run(engine, r, s).Output? && StepError(Run(engine, r, s)) == e
  {
    IterateFrom(engine, r, 0, fuel);
    var out := RenderLoop(r, engine, fuel);
    if exists s :: 0 <= s < fuel && ContinuesFrom(engine, r, 0, s)
                   && !Run(engine, r, s).Output? && StepError(Run(engine, r, s)) == e {
      var s :| 0 <= s < fuel && ContinuesFrom(engine, r, 0, s)
               && !Run(engine, r, s).Output? && StepError(Run(engine, r, s)) == e;
      assert out.LoopFailed?;
      var t :| 0 <= t < fuel && !Run(engine, r, t).Output? && ContinuesFrom(engine, r, 0, t)
               && out.err == StepError(Run(engine, r, t));
      FirstStopIsUnique(engine, r, s, t);
    }
  }

  /** A parse failure of the first non-continuing execution surfaces as a
      `parse template` error carrying the parser's cause. */
  lemma LoopParseFailsIff(engine: Engine, r: Renderer, fuel: nat, c: string)
    ensures RenderLoop(r, engine, fuel) == LoopFailed(ParseTemplate(c)) <==>
      exists s :: 0 <= s < fuel && ContinuesFrom(engine, r, 0, s) && Run(engine, r, s) == ParseFailed(c)
  {
    LoopFailsIff(engine, r, fuel, ParseTemplate(c));
  }

  /** An execution failure of the first non-continuing execution surfaces as
      a `render` error carrying the executor's cause. */
  lemma LoopExecFailsIff(engine: Engine, r: Renderer, fuel: nat, c: string)
    ensures RenderLoop(r, engine, fuel) == LoopFailed(RenderFailure(c)) <==>
      exists s :: 0 <= s < fuel && ContinuesFrom(engine, r, 0, s) && Run(engine, r, s) == ExecFailed(c)
  {
    LoopFailsIff(engine, r, fuel, RenderFailure(c));
  }

  /** `renderLoop` is still running after `fuel` executions exactly when each
      of them succeeded with an output different from the one before. */
  lemma LoopOutOfFuelIff(engine: Engine, r: Renderer, fuel: nat)
    ensures RenderLoop(r, engine, fuel) == LoopOutOfFuel <==> ContinuesFrom(engine, r, 0, fuel)
  {
    IterateFrom(engine, r, 0, fuel);
  }

  /** The fuel is only an observation bound: once the loop has stopped, more
      fuel gives the same outcome. */
  lemma FuelMonotone(engine: Engine, r: Renderer, fuel: nat, more: nat)
    requires fuel <= more
    requires !RenderLoop(r, engine, fuel).LoopOutOfFuel?
    ensures RenderLoop(r, engine, more) == RenderLoop(r, engine, fuel)
  {
    var out := RenderLoop(r, engine, fuel);
    match out
    case Converged(o, k) =>
      LoopConvergesIff(engine, r, fuel, o, k);
      LoopConvergesIff(engine, r, more, o, k);
    case LoopFailed(e) =>
      LoopFailsIff(engine, r, fuel, e);
      LoopFailsIff(engine, r, more, e);
  }

  /** When the loop stops after two or more executions, its result is a fixed
      point of template execution. */
  lemma ConvergedIsFixedPoint(engine: Engine, r: Renderer, fuel: nat)
    requires RenderLoop(r, engine, fuel).Converged?
    requires RenderLoop(r, engine, fuel).executions >= 2
    ensures var o := RenderLoop(r, engine, fuel).text; engine(o, r.vars, r.funcs) == Output(o)
  {
    var out := RenderLoop(r, engine, fuel);
    var k := out.executions;
    LoopConvergesIff(engine, r, fuel, out.text, k);
    assert Continues(engine, r, k - 2);
  }

  /** When the loop stops after one execution, that execution produced "" —
      the initial previous output — whatever the template body was. */
  lemma ConvergedAfterOne(engine: Engine, r: Renderer, fuel: nat)
    requires RenderLoop(r, engine, fuel).Converged?
    requires RenderLoop(r, engine, fuel).executions == 1
    ensures RenderLoop(r, engine, fuel).text == ""
    ensures engine(r.tmplStr, r.vars, r.funcs) == Output("")
  {
    var out := RenderLoop(r, engine, fuel);
    LoopConvergesIff(engine, r, fuel, out.text, 1);
  }

  /** A body that executes to a non-empty b which executes to itself yields b
      after exactly two executions. */
  lemma TwoExecutions(engine: Engine, r: Renderer, fuel: nat, b: string)
    requires fuel >= 2
    requires b != ""
    requires engine(r.tmplStr, r.vars, r.funcs) == Output(b)
    requires engine(b, r.vars, r.funcs) == Output(b)
    ensures RenderLoop(r, engine, fuel) == Converged(b, 2)
  {
    assert Continues(engine, r, 0);
    assert Run(engine, r, 1) == Output(b);
    LoopConvergesIff(engine, r, fuel, b, 2);
  }

  /** A body that executes to "" yields "" after one execution. */
  lemma EmptyFirstOutput(engine: Engine, r: Renderer, fuel: nat)
    requires fuel >= 1
    requires engine(r.tmplStr, r.vars, r.funcs) == Output("")
    ensures RenderLoop(r, engine, fuel) == Converged("", 1)
  {
    LoopConvergesIff(engine, r, fuel, "", 1);
  }

  /** A successful render is the formatted loop result, and that result is a
      fixed point of template execution unless the first execution already
      produced "". */
  lemma RenderedIsFormattedFixedPoint(engine: Engine, json: JsonCodec, r: Renderer, fuel: nat)
    requires Render(r, engine, json, fuel).Rendered?
    ensures var o := RenderLoop(r, engine, fuel).text;
      && (engine(o, r.vars, r.funcs) == Output(o)
          || (o == "" && engine(r.tmplStr, r.vars, r.funcs) == Output("")))
      && Render(r, engine, json, fuel).result ==
           (if r.resultType == JsonType
            then RenderResult(json.indent(o, IndentPrefix, IndentUnit), JsonContentType)
            else RenderResult(o, TextContentType))
  {
    if RenderLoop(r, engine, fuel).executions >= 2 {
      ConvergedIsFixedPoint(engine, r, fuel);
    } else {
      ConvergedAfterOne(engine, r, fuel);
    }
  }
}
