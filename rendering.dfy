/**
 * `renderDiagram`: D2 source text to PNG bytes through a chain of library
 * calls (compile, text measurement, dimensions, dagre layout, export, SVG
 * rendering, headless-browser rasterisation).  Each call is opaque here: a
 * `Pipeline` says which calls fail, with what message, and which PNG bytes
 * the rasteriser produces.  Both revisions of the bot nest the calls the same
 * way, so one model serves both.
 */
module Rendering {
  import opened Support

  datatype Stage =
    | Compile | NewRuler | SetDimensions | Layout | Export | RenderSvg
    | InitRasteriser | ConvertSvg | Cleanup

  /** The calls before cleanup, outermost first, as the source nests them. */
  const Chain: seq<Stage> := [Compile, NewRuler, SetDimensions, Layout, Export, RenderSvg, InitRasteriser, ConvertSvg]

  /** Index of InitRasteriser in Chain. */
  const InitIndex := 6

  /** How the external libraries behave on one diagram source. */
  datatype Pipeline = Pipeline(failure: Stage -> Option<string>, png: Bytes)

  predicate Succeeds(p: Pipeline, s: Stage) {
    p.failure(s).None?
  }

  /** The stages a short-circuiting chain runs: up to and including the first failing one. */
  function Attempted(p: Pipeline, stages: seq<Stage>): (ran: seq<Stage>)
    ensures |ran| <= |stages| && ran == stages[..|ran|]
  {
    if stages == [] then []
    else if !Succeeds(p, stages[0]) then [stages[0]]
    else [stages[0]] + Attempted(p, stages[1..])
  }

  /** The error of the first failing stage, if any. */
  function FirstFailure(p: Pipeline, stages: seq<Stage>): Option<string> {
    if stages == [] then None
    else if !Succeeds(p, stages[0]) then p.failure(stages[0])
    else FirstFailure(p, stages[1..])
  }

  /** When every stage succeeds, all of them run and nothing fails. */
  lemma {:induction false} AllSucceed(p: Pipeline, stages: seq<Stage>)
    requires forall j :: 0 <= j < |stages| ==> Succeeds(p, stages[j])
    ensures Attempted(p, stages) == stages
    ensures FirstFailure(p, stages) == None
  {
    if stages != [] {
      AllSucceed(p, stages[1..]);
    }
  }

  /** When stage i is the first to fail, exactly stages 0..i run and its error is the one reported. */
  lemma {:induction false} FailsAt(p: Pipeline, stages: seq<Stage>, i: nat)
    requires i < |stages|
    requires forall j :: 0 <= j < i ==> Succeeds(p, stages[j])
    requires !Succeeds(p, stages[i])
    ensures Attempted(p, stages) == stages[..i + 1]
    ensures FirstFailure(p, stages) == p.failure(stages[i])
  {
    if i > 0 {
      FailsAt(p, stages[1..], i - 1);
      assert stages[..i + 1] == [stages[0]] + stages[1..][..i];
    }
  }

  /** The rasteriser was initialised, so its deferred cleanup is armed. */
  predicate RasteriserStarted(p: Pipeline) {
    InitRasteriser in Attempted(p, Chain) && Succeeds(p, InitRasteriser)
  }

  /** Every library call renderDiagram makes, in order. */
  function StagesRun(p: Pipeline): seq<Stage> {
    Attempted(p, Chain) + (if RasteriserStarted(p) then [Cleanup] else [])
  }

  /** What renderDiagram reports: the first failure, else a cleanup failure, else the PNG. */
  function Rendered(p: Pipeline): Result<Bytes> {
    match FirstFailure(p, Chain)
    case Some(e) => Err(e)
    case None => if Succeeds(p, Cleanup) then Ok(p.png) else Err(p.failure(Cleanup).value)
  }

  /** A stage up to InitRasteriser fails first: the chain stops there and no cleanup runs. */
  lemma EarlyFailure(p: Pipeline, i: nat)
    requires i <= InitIndex
    requires forall j :: 0 <= j < i ==> Succeeds(p, Chain[j])
    requires !Succeeds(p, Chain[i])
    ensures StagesRun(p) == Chain[..i + 1]
    ensures Rendered(p) == Err(p.failure(Chain[i]).value)
  {
    FailsAt(p, Chain, i);
  }

  /** The rasteriser started: every stage of the chain runs, then cleanup. */
  lemma LateOutcome(p: Pipeline)
    requires forall j :: 0 <= j <= InitIndex ==> Succeeds(p, Chain[j])
    ensures StagesRun(p) == Chain + [Cleanup]
    ensures !Succeeds(p, ConvertSvg) ==> Rendered(p) == Err(p.failure(ConvertSvg).value)
    ensures Succeeds(p, ConvertSvg) ==>
      Rendered(p) == if Succeeds(p, Cleanup) then Ok(p.png) else Err(p.failure(Cleanup).value)
  {
    if Succeeds(p, ConvertSvg) {
      AllSucceed(p, Chain);
    } else {
      FailsAt(p, Chain, 7);
    }
    assert Chain[..8] == Chain;
    assert Chain[InitIndex] == InitRasteriser;
  }

  /** Position of the first failing stage, or |stages| when none fails. */
  function FailureIndex(p: Pipeline, stages: seq<Stage>): (i: nat)
    ensures i <= |stages|
    ensures forall j :: 0 <= j < i ==> Succeeds(p, stages[j])
    ensures i < |stages| ==> !Succeeds(p, stages[i])
  {
    if stages == [] then 0
    else if !Succeeds(p, stages[0]) then 0
    else 1 + FailureIndex(p, stages[1..])
  }

  /**
   * Short-circuit: the first failing stage's error is the result, and no
   * stage after it is called.
   */
  lemma ShortCircuit(p: Pipeline, i: nat)
    requires i < |Chain|
    requires forall j :: 0 <= j < i ==> Succeeds(p, Chain[j])
    requires !Succeeds(p, Chain[i])
    ensures Rendered(p) == Err(p.failure(Chain[i]).value)
    ensures Chain[..i + 1] <= StagesRun(p)
    ensures forall j :: i < j < |Chain| ==> Chain[j] !in StagesRun(p)
  {
    if i <= InitIndex {
      EarlyFailure(p, i);
    } else {
      LateOutcome(p);
    }
  }

  /** The deferred cleanup is called exactly when every stage up to InitRasteriser succeeded. */
  lemma CleanupIffRasteriserStarted(p: Pipeline)
    ensures Cleanup in StagesRun(p) <==> forall j :: 0 <= j <= InitIndex ==> Succeeds(p, Chain[j])
  {
    var i := FailureIndex(p, Chain);
    if i <= InitIndex {
      EarlyFailure(p, i);
    } else {
      LateOutcome(p);
    }
  }

  /**
   * A cleanup failure is reported only when nothing earlier failed, and the
   * PNG is returned only when no call at all failed.
   */
  lemma CleanupErrorOnlyAfterSuccess(p: Pipeline)
    ensures Rendered(p).Ok? <==> forall s: Stage :: Succeeds(p, s)
    ensures Rendered(p).Ok? ==> Rendered(p).value == p.png
    ensures (forall j :: 0 <= j < |Chain| ==> Succeeds(p, Chain[j])) && !Succeeds(p, Cleanup)
      ==> Rendered(p) == Err(p.failure(Cleanup).value)
  {
    var i := FailureIndex(p, Chain);
    if i < |Chain| {
      ShortCircuit(p, i);
    } else {
      LateOutcome(p);
      forall s: Stage ensures Succeeds(p, s) <== Succeeds(p, Cleanup) {
        assert s == Cleanup || s == Chain[0] || s == Chain[1] || s == Chain[2] || s == Chain[3]
          || s == Chain[4] || s == Chain[5] || s == Chain[6] || s == Chain[7];
      }
    }
  }

  /**
   * The nested chain of bot.go's renderDiagram.  `ran` lists the library
   * calls made (ghost: only the proofs read it).
   */
  method RenderDiagram(p: Pipeline) returns (result: Result<Bytes>, ghost ran: seq<Stage>)
    ensures result == Rendered(p)
    ensures ran == StagesRun(p)
  {
    // each `else` is the source's fall-through to `return nil, err`; it only carries the proof
    var err := p.failure(Compile);
    ran := [Compile];
    if err.None? {
      err := p.failure(NewRuler);
      ran := ran + [NewRuler];
      if err.None? {
        err := p.failure(SetDimensions);
        ran := ran + [SetDimensions];
        if err.None? {
          err := p.failure(Layout);
          ran := ran + [Layout];
          if err.None? {
            err := p.failure(Export);
            ran := ran + [Export];
            if err.None? {
              err := p.failure(RenderSvg);
              ran := ran + [RenderSvg];
              if err.None? {
                err := p.failure(InitRasteriser);
                ran := ran + [InitRasteriser];
                if err.None? {
                  err := p.failure(ConvertSvg);
                  ran := ran + [ConvertSvg];
                  result := if err.None? then Ok(p.png) else Err(err.value);
                  // the deferred cleanup: its error replaces only a nil error
                  var cleanupErr := p.failure(Cleanup);
                  ran := ran + [Cleanup];
                  if result.Ok? && cleanupErr.Some? {
                    result := Err(cleanupErr.value);
                  }
                  LateOutcome(p);
                  return;
                } else { EarlyFailure(p, 6); }
              } else { EarlyFailure(p, 5); }
            } else { EarlyFailure(p, 4); }
          } else { EarlyFailure(p, 3); }
        } else { EarlyFailure(p, 2); }
      } else { EarlyFailure(p, 1); }
    } else { EarlyFailure(p, 0); }
    result := Err(err.value);
  }
}
