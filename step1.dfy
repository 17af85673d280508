/**
  The step-1 screen: a reveal counter driving the schematic canvas, the progress derived from
  it, the switch to step 2 and the reset on coming back.
*/
module StepOne {
  import opened Schematic

  /** JavaScript's `Math.round`: the nearest integer, with halves rounded up. */
  function Round(x: real): (n: int)
    ensures n as real - 0.5 <= x < n as real + 0.5
  {
    (x + 0.5).Floor
  }

  function IntMin(a: int, b: int): int { if a <= b then a else b }

  /** The progress bar's percentage at `stage`. */
  function ProgressPct(stage: int): int {
    Round(stage as real / FinalStage as real * 100.0)
  }

  /** The last reveal has happened; this both disables the draw button and unlocks step 2. */
  predicate IsLastStage(stage: int) {
    stage >= FinalStage
  }

  predicate ShowFireworks(stage: int) {
    ProgressPct(stage) >= 100
  }

  /** The stage after one click of the draw button. */
  function NextStage(stage: int): int {
    if IsLastStage(stage) then stage else IntMin(stage + 1, FinalStage)
  }

  /** The stage after `n` clicks from a fresh screen. */
  function StageAfter(n: nat): int {
    if n == 0 then 0 else NextStage(StageAfter(n - 1))
  }

  /** For integer stages the rounding is exact: the bar shows ten percent per stage. */
  lemma ProgressPctExact(stage: int)
    ensures ProgressPct(stage) == 10 * stage
    ensures ProgressPct(stage) == 100 <==> stage == FinalStage
  {
    var x := stage as real / FinalStage as real * 100.0;
    assert x == (10 * stage) as real;
  }

  /** Fireworks are shown exactly from the last stage on. */
  lemma FireworksAtLastStage(stage: int)
    ensures ShowFireworks(stage) <==> IsLastStage(stage)
  {
    ProgressPctExact(stage);
  }

  /** Each click reveals one more stage until the last, after which clicks change nothing. */
  lemma {:induction false} StageAfterClicks(n: nat)
    ensures StageAfter(n) == IntMin(n, FinalStage)
    ensures 0 <= StageAfter(n) <= FinalStage
  {
    if n > 0 {
      StageAfterClicks(n - 1);
    }
  }

  /** The step-1 component's state. `canvas` is the mounted canvas instance: a new key mounts a
      new one. */
  class Steps {
    var stage: int
    var showStep2: bool
    var canvasResetKey: nat
    var canvas: SchematicCanvas

    ghost predicate Valid()
      reads this, canvas
    {
      0 <= stage <= FinalStage && canvas.Valid()
    }

    constructor ()
      ensures Valid()
      ensures stage == 0 && !showStep2 && canvasResetKey == 0
      ensures fresh(canvas) && canvas.zoomTenths == InitialZoomTenths && canvas.offset == Point(0.0, 0.0)
    {
      stage := 0;
      showStep2 := false;
      canvasResetKey := 0;
      canvas := new SchematicCanvas();
    }

    /** The draw button: reveal the next stage unless the last one has been reached. */
    method HandleNext()
      requires Valid()
      modifies this
      ensures Valid()
      ensures stage == NextStage(old(stage))
      ensures showStep2 == old(showStep2) && canvasResetKey == old(canvasResetKey) && canvas == old(canvas)
    {
      if IsLastStage(stage) {
        return;
      }
      stage := IntMin(stage + 1, FinalStage);
    }

    /** The "Move to Step 2" button: acts only once the last stage is reached. */
    method MoveToStep2()
      requires Valid()
      modifies this
      ensures Valid()
      ensures showStep2 == (old(showStep2) || IsLastStage(old(stage)))
      ensures stage == old(stage) && canvasResetKey == old(canvasResetKey) && canvas == old(canvas)
    {
      if IsLastStage(stage) {
        showStep2 := true;
      }
    }

    /** Step 2's back button: a fresh step 1, whose canvas is remounted with the initial zoom and
        offset. */
    method BackFromStep2()
      requires Valid() && showStep2
      modifies this
      ensures Valid()
      ensures stage == 0 && !showStep2 && canvasResetKey == old(canvasResetKey) + 1
      ensures fresh(canvas) && canvas.zoomTenths == InitialZoomTenths && canvas.offset == Point(0.0, 0.0)
    {
      stage := 0;
      canvasResetKey := canvasResetKey + 1;
      showStep2 := false;
      canvas := new SchematicCanvas();
    }

    /** One animation frame of the mounted canvas at the current stage; the canvas is mounted
        only while step 2 is hidden. */
    method Redraw(ctx: Context, s: Surface)
      requires Valid() && !showStep2
      modifies ctx
      ensures ctx.commands == old(ctx.commands) + Frame(s, stage, canvas.Zoom(), canvas.offset)
    {
      canvas.Draw(ctx, s, stage);
    }
  }
}
