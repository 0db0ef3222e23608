/**
 * Extended context stages as an admin edits them (apps/mobile/lib/localModels.ts): which stages
 * can be saved, and the ones the app suggests. Numbers are exact here.
 */
module ContextStages {
  import opened Prelude

  const MAX_CTX := 2147483647      // 2^31 - 1
  const MIN_CTX := 512

  /** What `Number` makes of the typed text; a blank field is told apart before. */
  datatype Typed = Blank | NotFinite | Num(value: real)

  /** The stage a row came from: a pinned factor, and the context its knobs were worked out from. */
  datatype Base = Base(ropeScale: Option<real>, yarnOrigCtx: Option<int>)

  datatype Stage = Stage(ctx: Typed, base: Option<Base>)

  datatype Meta = Meta(nCtxTrain: Option<int>, ropeFactor: Option<real>)

  datatype StageError = NotWhole | TooBig | NotAboveStandard | NotAboveStage(stage: nat) | NoFactor

  /** Where the stages start from: a context the admin has set, or without one the file's own. */
  function StandardCtx(ctxSize: Option<int>, meta: Meta): Option<int> {
    if ctxSize.Some? then ctxSize else meta.nCtxTrain
  }

  /** `Math.round`: to the nearest whole number, a half up. */
  function Round(x: real): (r: int)
    ensures r as real - 0.5 <= x < r as real + 0.5
  {
    (x + 0.5).Floor
  }

  function Original(stage: Stage, meta: Meta): Option<int> {
    if stage.base.Some? && stage.base.value.yarnOrigCtx.Some? then stage.base.value.yarnOrigCtx else meta.nCtxTrain
  }

  /** The stretch a stage asks for: the pinned factor if there is one, else its context over the original one. */
  function DraftFactor(stage: Stage, meta: Meta): Option<real> {
    var orig := Original(stage, meta);
    if stage.base.Some? && stage.base.value.ropeScale.Some? then stage.base.value.ropeScale
    else if orig.None? || orig.value == 0 || stage.ctx.NotFinite? then None
    else if stage.ctx.Blank? || stage.ctx.value <= 0.0 then None        // `Number('')` is 0
    else Some(Round(stage.ctx.value / orig.value as real * 100.0) as real / 100.0)
  }

  /** The stage says outright what factor to load with. */
  predicate Pinned(stage: Stage) { stage.base.Some? && stage.base.value.ropeScale.Some? }

  /**
   * Unless it is pinned, the factor is the ratio of the stage's context to the original one, its
   * own if it has one, to two decimals.
   */
  lemma FactorIsTheRatio(stage: Stage, meta: Meta)
    requires !Pinned(stage) && DraftFactor(stage, meta).Some?
    ensures stage.ctx.Num? && Original(stage, meta).Some? && Original(stage, meta).value != 0
    ensures Original(stage, meta) ==
            if stage.base.Some? && stage.base.value.yarnOrigCtx.Some? then stage.base.value.yarnOrigCtx
            else meta.nCtxTrain
    ensures var ratio := stage.ctx.value / Original(stage, meta).value as real;
      var factor := DraftFactor(stage, meta).value;
      factor - 0.005 <= ratio < factor + 0.005 && factor * 100.0 == (factor * 100.0).Floor as real
  {
    var ratio := stage.ctx.value / Original(stage, meta).value as real;
    var r := Round(ratio * 100.0);
    assert DraftFactor(stage, meta).value == r as real / 100.0;
    assert r as real / 100.0 * 100.0 == r as real;
  }

  /** A factor can be worked out from a pin, which is it, or from a positive context and an original one. */
  lemma FactorIsKnownExactlyWhen(stage: Stage, meta: Meta)
    ensures Pinned(stage) ==> DraftFactor(stage, meta) == stage.base.value.ropeScale
    ensures DraftFactor(stage, meta).Some? <==>
      || Pinned(stage)
      || (stage.ctx.Num? && stage.ctx.value > 0.0 && Original(stage, meta).Some? && Original(stage, meta).value != 0)
  {}

  // ----- Judging stages -----

  /** A context nothing is wrong with in itself: integral, and no smaller than the least allowed. */
  predicate Whole(stage: Stage) {
    stage.ctx.Num? && stage.ctx.value == stage.ctx.value.Floor as real && stage.ctx.value.Floor >= MIN_CTX
  }

  function Tokens(stage: Stage): int
    requires Whole(stage)
  {
    stage.ctx.value.Floor
  }

  function ErrorOf(stage: Stage, i: nat, previous: int, meta: Meta): Option<StageError> {
    if !Whole(stage) then Some(NotWhole)
    else if Tokens(stage) > MAX_CTX then Some(TooBig)
    else if Tokens(stage) <= previous then Some(if i == 0 then NotAboveStandard else NotAboveStage(i))
    else if DraftFactor(stage, meta).None? then Some(NoFactor)
    else None
  }

  /** The errors of the stages from `i` on, when `previous` is the last one accepted. */
  function ErrorsFrom(stages: seq<Stage>, i: nat, previous: int, meta: Meta): (r: seq<Option<StageError>>)
    requires i <= |stages|
    ensures |r| == |stages| - i
    decreases |stages| - i
  {
    if i == |stages| then []
    else
      var error := ErrorOf(stages[i], i, previous, meta);
      [error] + ErrorsFrom(stages, i + 1, if error.None? then Tokens(stages[i]) else previous, meta)
  }

  function Errors(stages: seq<Stage>, standard: Option<int>, meta: Meta): (r: seq<Option<StageError>>)
    ensures |r| == |stages|
  {
    ErrorsFrom(stages, 0, if standard.Some? then standard.value else 0, meta)
  }

  method StageErrors(stages: seq<Stage>, standard: Option<int>, meta: Meta) returns (errors: seq<Option<StageError>>)
    ensures errors == Errors(stages, standard, meta)
  {
    errors := [];
    var previous := if standard.Some? then standard.value else 0;
    for i := 0 to |stages|
      invariant errors + ErrorsFrom(stages, i, previous, meta) == Errors(stages, standard, meta)
    {
      var error := ErrorOf(stages[i], i, previous, meta);
      var next := if error.None? then Tokens(stages[i]) else previous;
      Regroup(errors, [error], ErrorsFrom(stages, i + 1, next, meta));
      errors := errors + [error];
      previous := next;
    }
  }

  // ----- What passes -----

  /** A stage on its own: a whole number from 512 to 2^31 - 1, with a factor that can be worked out. */
  predicate Sound(stage: Stage, meta: Meta) {
    Whole(stage) && Tokens(stage) <= MAX_CTX && DraftFactor(stage, meta).Some?
  }

  /** `n` exceeds what it must before stage `i`: the standard context, and the stages from `from` without an error. */
  ghost predicate Above(n: int, stages: seq<Stage>, errors: seq<Option<StageError>>, from: nat, i: nat, previous: int)
    requires from <= i <= |stages| && |errors| == |stages| - from
  {
    && n > previous
    && forall k :: 0 <= k < i - from && errors[k].None? && Whole(stages[from + k]) ==> n > Tokens(stages[from + k])
  }

  lemma {:induction false} PassesFrom(stages: seq<Stage>, from: nat, i: nat, previous: int, meta: Meta)
    requires from <= i < |stages|
    ensures var errors := ErrorsFrom(stages, from, previous, meta);
      errors[i - from].None? <==>
      Sound(stages[i], meta) && Above(Tokens(stages[i]), stages, errors, from, i, previous)
    decreases |stages| - from
  {
    var errors := ErrorsFrom(stages, from, previous, meta);
    var error := errors[0];
    if from < i {
      var next := if error.None? then Tokens(stages[from]) else previous;
      var later := ErrorsFrom(stages, from + 1, next, meta);
      assert errors[1..] == later;
      PassesFrom(stages, from + 1, i, next, meta);
      if Whole(stages[i]) {
        var n := Tokens(stages[i]);
        AboveLater(n, stages, errors, from, i, previous, next);
      }
    }
  }

  /** Passing the first stage, or keeping what came before it, asks the same of a later stage. */
  lemma AboveLater(n: int, stages: seq<Stage>, errors: seq<Option<StageError>>, from: nat, i: nat, previous: int,
                   next: int)
    requires from < i < |stages| && |errors| == |stages| - from
    requires errors[0].None? ==> Whole(stages[from]) && next == Tokens(stages[from]) > previous
    requires errors[0].Some? ==> next == previous
    ensures Above(n, stages, errors, from, i, previous) <==> Above(n, stages, errors[1..], from + 1, i, next)
  {
    var later := errors[1..];
    if Above(n, stages, errors, from, i, previous) {
      forall k | 0 <= k < i - (from + 1) && later[k].None? && Whole(stages[from + 1 + k])
        ensures n > Tokens(stages[from + 1 + k])
      {
        assert errors[k + 1].None? && Whole(stages[from + (k + 1)]);
      }
    } else if Above(n, stages, later, from + 1, i, next) {
      forall k | 0 <= k < i - from && errors[k].None? && Whole(stages[from + k]) ensures n > Tokens(stages[from + k]) {
        if k > 0 { assert later[k - 1].None? && Whole(stages[from + 1 + (k - 1)]); }
      }
    }
  }

  /**
   * Stage by stage: a stage has no error exactly when it is sound and larger than the standard
   * context and than every stage before it that has none.
   */
  lemma StagePassesWhen(stages: seq<Stage>, standard: Option<int>, meta: Meta, i: nat)
    requires i < |stages|
    ensures var errors := Errors(stages, standard, meta);
      errors[i].None? <==>
      Sound(stages[i], meta) &&
      Above(Tokens(stages[i]), stages, errors, 0, i, if standard.Some? then standard.value else 0)
  {
    PassesFrom(stages, 0, i, if standard.Some? then standard.value else 0, meta);
  }

  /** Sound stages that strictly increase, all above the standard context. */
  predicate Increasing(stages: seq<Stage>, standard: Option<int>, meta: Meta) {
    && (forall i :: 0 <= i < |stages| ==> Sound(stages[i], meta))
    && (forall i :: 0 <= i < |stages| ==> Tokens(stages[i]) > if standard.Some? then standard.value else 0)
    && (forall i, j :: 0 <= i < j < |stages| ==> Tokens(stages[i]) < Tokens(stages[j]))
  }

  /**
   * Nothing is wrong exactly when the stages strictly increase above the standard context, are
   * whole numbers from 512 to 2^31 - 1, and each has a factor that can be worked out.
   */
  lemma AllPassWhen(stages: seq<Stage>, standard: Option<int>, meta: Meta)
    ensures (forall i :: 0 <= i < |stages| ==> Errors(stages, standard, meta)[i].None?) <==>
        Increasing(stages, standard, meta)
  {
    var errors := Errors(stages, standard, meta);
    if forall i :: 0 <= i < |stages| ==> errors[i].None? {
      forall i | 0 <= i < |stages|
        ensures Sound(stages[i], meta) && Tokens(stages[i]) > if standard.Some? then standard.value else 0
      {
        StagePassesWhen(stages, standard, meta, i);
      }
      forall i, j | 0 <= i < j < |stages| ensures Tokens(stages[i]) < Tokens(stages[j]) {
        StagePassesWhen(stages, standard, meta, j);
        assert errors[i].None? && stages[0 + i] == stages[i];
      }
    } else if Increasing(stages, standard, meta) {
      forall i | 0 <= i < |stages| ensures errors[i].None? {
        StagePassesWhen(stages, standard, meta, i);
      }
    }
  }

  /** A whole number of tokens between the least and the most a stage may have. */
  predicate InBounds(stage: Stage) {
    && stage.ctx.Num? && stage.ctx.value == stage.ctx.value.Floor as real
    && 512.0 <= stage.ctx.value <= 2_147_483_647.0
  }

  lemma InBoundsIs(stage: Stage)
    ensures InBounds(stage) <==> Whole(stage) && Tokens(stage) <= MAX_CTX
  {}

  /** The standard context is what the admin set, and without that what the file was trained for. */
  lemma AdminsContextRules(ctxSize: Option<int>, meta: Meta, stage: Stage)
    requires InBounds(stage) && DraftFactor(stage, meta).Some?
    ensures Errors([stage], StandardCtx(ctxSize, meta), meta)[0].None? <==>
      stage.ctx.value > (if ctxSize.Some? then ctxSize.value
                         else if meta.nCtxTrain.Some? then meta.nCtxTrain.value else 0) as real
  {
    InBoundsIs(stage);
  }

  /**
   * Which error a stage is given: out of bounds, below or above; then not above the standard
   * context, for the first, or not above what came before it; then that there is no factor.
   */
  lemma ErrorIsWhatIsSaid(stages: seq<Stage>, standard: Option<int>, meta: Meta, i: nat)
    requires i < |stages|
    ensures var errors := Errors(stages, standard, meta); var least := if standard.Some? then standard.value else 0;
      && (errors[i] == Some(NotWhole) <==> !Whole(stages[i]))
      && (errors[i] == Some(TooBig) <==> Whole(stages[i]) && !InBounds(stages[i]))
      && (errors[i] == Some(NotAboveStandard) <==>
           i == 0 && InBounds(stages[i]) && !Above(Tokens(stages[i]), stages, errors, 0, i, least))
      && (errors[i] == Some(NotAboveStage(i)) <==>
           i > 0 && InBounds(stages[i]) && !Above(Tokens(stages[i]), stages, errors, 0, i, least))
      && (errors[i] == Some(NoFactor) <==>
           InBounds(stages[i]) && Above(Tokens(stages[i]), stages, errors, 0, i, least)
           && DraftFactor(stages[i], meta).None?)
  {
    InBoundsIs(stages[i]);
    ErrorsSaid(stages, 0, i, if standard.Some? then standard.value else 0, meta);
  }

  lemma {:induction false} ErrorsSaid(stages: seq<Stage>, from: nat, i: nat, previous: int, meta: Meta)
    requires from <= i < |stages|
    ensures var errors := ErrorsFrom(stages, from, previous, meta);
      errors[i - from] ==
      if !Whole(stages[i]) then Some(NotWhole)
      else if Tokens(stages[i]) > MAX_CTX then Some(TooBig)
      else if !Above(Tokens(stages[i]), stages, errors, from, i, previous) then
        Some(if i == 0 then NotAboveStandard else NotAboveStage(i))
      else if DraftFactor(stages[i], meta).None? then Some(NoFactor)
      else None
    decreases |stages| - from
  {
    var errors := ErrorsFrom(stages, from, previous, meta);
    if from < i {
      var next := if errors[0].None? then Tokens(stages[from]) else previous;
      var later := ErrorsFrom(stages, from + 1, next, meta);
      assert errors[1..] == later;
      ErrorsSaid(stages, from + 1, i, next, meta);
      if Whole(stages[i]) { AboveLater(Tokens(stages[i]), stages, errors, from, i, previous, next); }
    }
  }

  // ----- Suggestions -----

  /** How far the file says it can be stretched, else 4. */
  function MaxFactor(meta: Meta): (f: real)
    ensures f > 1.0
  {
    if meta.ropeFactor.Some? && meta.ropeFactor.value > 1.0 then meta.ropeFactor.value else 4.0
  }

  /** The file's factor counts from just above 1; without one a model stretches four times. */
  lemma StretchLimitIs(meta: Meta, factor: real)
    ensures MaxFactor(meta.(ropeFactor := Some(factor))) == if factor > 1.0 then factor else 4.0
    ensures MaxFactor(meta.(ropeFactor := None)) == 4.0
  {}

  /** The trained context times `f`, to the nearest multiple of 1024. */
  function Stretched(trained: int, f: int): int { Round((trained * f) as real / 1024.0) * 1024 }

  /** Rounding moves a suggestion by at most half a step, so it is worked out in whole numbers. */
  lemma StretchedIs(trained: int, f: int)
    ensures Stretched(trained, f) == (2 * (trained * f) + 1024) / 2048 * 1024
    ensures Stretched(trained, f) - 512 <= trained * f < Stretched(trained, f) + 512
  {
    var x := (trained * f) as real / 1024.0;
    var r := Round(x);
    assert 2 * (trained * f) + 1024 >= 2048 * r;
    assert 2 * (trained * f) + 1024 < 2048 * (r + 1);
  }

  /** What each factor makes of a trained context. */
  function Stretch(trained: int): int -> int { f => Stretched(trained, f) }

  /** The suggestions with factors from `f` on. */
  function SuggestFrom(stretch: int -> int, top: int, f: int, above: int): seq<int>
    decreases top - f
  {
    if f > top then []
    else (if stretch(f) > above then [stretch(f)] else []) + SuggestFrom(stretch, top, f + 1, above)
  }

  function Suggested(meta: Meta, standard: Option<int>): seq<int> {
    if meta.nCtxTrain.None? || meta.nCtxTrain.value == 0 then []
    else SuggestFrom(Stretch(meta.nCtxTrain.value), MaxFactor(meta).Floor, 2,
                     if standard.Some? then standard.value else 0)
  }

  method SuggestStages(meta: Meta, standard: Option<int>) returns (out: seq<int>)
    ensures out == Suggested(meta, standard)
  {
    if meta.nCtxTrain.None? || meta.nCtxTrain.value == 0 { return []; }
    var trained := meta.nCtxTrain.value;
    var above := if standard.Some? then standard.value else 0;
    var top := MaxFactor(meta).Floor;
    out := [];
    var f := 2;
    while f <= top
      invariant out + SuggestFrom(Stretch(trained), top, f, above) == Suggested(meta, standard)
      decreases top - f
    {
      var ctx := Round((trained * f) as real / 1024.0) * 1024;
      assert ctx == Stretch(trained)(f);
      if ctx > above {
        Regroup(out, [ctx], SuggestFrom(Stretch(trained), top, f + 1, above));
        out := out + [ctx];
      } else {
        assert [] + SuggestFrom(Stretch(trained), top, f + 1, above) ==
            SuggestFrom(Stretch(trained), top, f + 1, above);
      }
      f := f + 1;
    }
  }

  /** Whole steps of 1024, each within half a step of the trained context times the factor. */
  ghost predicate Rounded(stretch: int -> int, steps: int -> int, trained: int) {
    forall f :: stretch(f) == 1024 * steps(f) && stretch(f) - 512 <= trained * f < stretch(f) + 512
  }

  lemma StretchIsRounded(trained: int) returns (steps: int -> int)
    ensures Rounded(Stretch(trained), steps, trained)
  {
    steps := f => Round((trained * f) as real / 1024.0);
    forall f
      ensures Stretch(trained)(f) == 1024 * steps(f)
      ensures Stretch(trained)(f) - 512 <= trained * f < Stretch(trained)(f) + 512
    {
      StretchedIs(trained, f);
    }
  }

  /** Each factor stretches further than the one before. */
  ghost predicate Growing(stretch: int -> int) { forall f :: f >= 2 ==> GrowsAt(stretch, f) }

  predicate GrowsAt(stretch: int -> int, f: int) { stretch(f) < stretch(f + 1) }

  /** No factor stretches less than the one before, unless it is to nothing that can be saved. */
  ghost predicate Tame(stretch: int -> int) { forall f :: f >= 2 ==> TameAt(stretch, f) }

  predicate TameAt(stretch: int -> int, f: int) { stretch(f) <= stretch(f + 1) || stretch(f) < MIN_CTX }

  /** What one factor more does to any rounded stretch. */
  lemma RoundedStep(stretch: int -> int, steps: int -> int, trained: int, f: int)
    requires Rounded(stretch, steps, trained) && f >= 2
    ensures trained >= 1024 ==> stretch(f) < stretch(f + 1)
    ensures stretch(f) <= stretch(f + 1) || stretch(f) < MIN_CTX
  {
    assert stretch(f) == 1024 * steps(f) && stretch(f + 1) == 1024 * steps(f + 1);
    assert trained * (f + 1) == trained * f + trained;
    if trained < 0 { assert trained * f < 0; }
  }

  lemma StretchIsTame(trained: int)
    ensures Tame(Stretch(trained))
    ensures trained >= 1024 ==> Growing(Stretch(trained)) && Stretch(trained)(2) > trained
  {
    var stretch := Stretch(trained);
    var steps := StretchIsRounded(trained);
    forall f | f >= 2
      ensures TameAt(stretch, f)
      ensures trained >= 1024 ==> GrowsAt(stretch, f)
    {
      RoundedStep(stretch, steps, trained, f);
    }
    assert stretch(2) == 1024 * steps(2) && trained * 2 < stretch(2) + 512;
  }

  predicate AllAtLeast(xs: seq<int>, least: int) { forall i :: 0 <= i < |xs| ==> xs[i] >= least }

  predicate Ascending(xs: seq<int>) { forall i, j :: 0 <= i < j < |xs| ==> xs[i] < xs[j] }

  lemma AscendingCons(x: int, rest: seq<int>, least: int)
    requires Ascending(rest) && AllAtLeast(rest, x + 1) && least <= x
    ensures Ascending([x] + rest) && AllAtLeast([x] + rest, least)
  {}

  /** The suggestions strictly increase, all of them above the standard context. */
  lemma {:induction false} SuggestionsAscend(stretch: int -> int, top: int, f: int, above: int)
    requires Growing(stretch) && f >= 2
    ensures AllAtLeast(SuggestFrom(stretch, top, f, above), stretch(f))
    ensures Ascending(SuggestFrom(stretch, top, f, above))
    decreases top - f
  {
    if f <= top {
      SuggestionsAscend(stretch, top, f + 1, above);
      var x, rest := stretch(f), SuggestFrom(stretch, top, f + 1, above);
      assert GrowsAt(stretch, f);
      assert AllAtLeast(rest, x + 1);
      if x > above {
        AscendingCons(x, rest, x);
        assert SuggestFrom(stretch, top, f, above) == [x] + rest;
      } else {
        assert SuggestFrom(stretch, top, f, above) == [] + rest == rest;
      }
    }
  }

  lemma {:induction false} EveryFactorIsOffered(stretch: int -> int, top: int, f: int, above: int)
    requires Growing(stretch) && 2 <= f <= top + 1 && stretch(f) > above
    ensures |SuggestFrom(stretch, top, f, above)| == top - f + 1
    decreases top - f
  {
    if f <= top {
      assert GrowsAt(stretch, f);
      EveryFactorIsOffered(stretch, top, f + 1, above);
    }
  }

  /** With no context set by the admin, every factor from 2 to the largest is suggested. */
  lemma DefaultOffersEveryFactor(meta: Meta)
    requires meta.nCtxTrain.Some? && meta.nCtxTrain.value >= 1024
    ensures |Suggested(meta, StandardCtx(None, meta))| == MaxFactor(meta).Floor - 1
  {
    StretchIsTame(meta.nCtxTrain.value);
    EveryFactorIsOffered(Stretch(meta.nCtxTrain.value), MaxFactor(meta).Floor, 2, meta.nCtxTrain.value);
  }

  /** A suggestion taken into the sheet: its number typed, with nothing carried over. */
  function AsStages(suggestions: seq<int>): (r: seq<Stage>)
    ensures |r| == |suggestions|
    ensures forall i :: 0 <= i < |r| ==> r[i] == Stage(Num(suggestions[i] as real), None)
  {
    seq(|suggestions|, i requires 0 <= i < |suggestions| => Stage(Num(suggestions[i] as real), None))
  }

  /**
   * The suggestions can be saved: for a model trained on at least 1024 tokens, despite rounding
   * to multiples of 1024, a list of suggestions passes exactly when its last entry, the largest,
   * is at most 2^31 - 1.
   */
  lemma SuggestionsPassWhen(meta: Meta, standard: Option<int>)
    requires meta.nCtxTrain.Some? && meta.nCtxTrain.value >= 1024
    ensures var out := Suggested(meta, standard); var errors := Errors(AsStages(out), standard, meta);
      (forall i :: 0 <= i < |out| ==> errors[i].None?) <==> out == [] || out[|out| - 1] <= MAX_CTX
  {
    var trained, above := meta.nCtxTrain.value, if standard.Some? then standard.value else 0;
    StretchIsTame(trained);
    SuggestionsAscend(Stretch(trained), MaxFactor(meta).Floor, 2, above);
    SuggestionsAreAbove(Stretch(trained), MaxFactor(meta).Floor, 2, above);
    AscendingPassWhen(Suggested(meta, standard), meta, standard);
    AllPassWhen(AsStages(Suggested(meta, standard)), standard, meta);
  }

  // ----- Suggestions, for any model -----

  /** Factor `f` is offered: it is in range, and its stretch is above the standard context. */
  predicate Offered(stretch: int -> int, top: int, above: int, f: int) { 2 <= f <= top && stretch(f) > above }

  /** A factor gives a context that can be saved, and the next factor gives a larger one. */
  predicate Clear(stretch: int -> int, top: int, f: int) {
    MIN_CTX <= stretch(f) <= MAX_CTX && (f < top ==> stretch(f) < stretch(f + 1))
  }

  ghost predicate AllClear(stretch: int -> int, top: int, above: int, from: int) {
    forall f :: from <= f && Offered(stretch, top, above, f) ==> Clear(stretch, top, f)
  }

  predicate Saveable(xs: seq<int>) { Ascending(xs) && forall i :: 0 <= i < |xs| ==> MIN_CTX <= xs[i] <= MAX_CTX }

  lemma SaveableCons(x: int, rest: seq<int>)
    ensures Saveable([x] + rest) <==> MIN_CTX <= x <= MAX_CTX && Saveable(rest) && (rest == [] || x < rest[0])
  {
    var xs := [x] + rest;
    if Saveable(xs) {
      assert forall i :: 0 <= i < |rest| ==> rest[i] == xs[i + 1];
      assert Ascending(rest) && (rest == [] || xs[0] < xs[1]);
    }
  }

  lemma AllClearStep(stretch: int -> int, top: int, above: int, f: int)
    ensures AllClear(stretch, top, above, f) <==>
            (Offered(stretch, top, above, f) ==> Clear(stretch, top, f)) && AllClear(stretch, top, above, f + 1)
  {}

  /** One factor in front of the rest: offered or not. */
  lemma SaveableStep(stretch: int -> int, top: int, f: int, above: int, rest: seq<int>)
    requires Tame(stretch) && 2 <= f <= top
    requires Saveable(rest) <==> AllClear(stretch, top, above, f + 1)
    requires f == top ==> rest == []
    requires f < top && stretch(f + 1) > above ==> rest != [] && rest[0] == stretch(f + 1)
    ensures Saveable(if stretch(f) > above then [stretch(f)] + rest else rest) <==> AllClear(stretch, top, above, f)
  {
    AllClearStep(stretch, top, above, f);
    SaveableCons(stretch(f), rest);
    assert TameAt(stretch, f);
  }

  lemma SuggestOne(stretch: int -> int, top: int, f: int, above: int)
    requires f <= top
    ensures SuggestFrom(stretch, top, f, above) ==
            if stretch(f) > above then [stretch(f)] + SuggestFrom(stretch, top, f + 1, above)
            else SuggestFrom(stretch, top, f + 1, above)
  {
    assert [] + SuggestFrom(stretch, top, f + 1, above) == SuggestFrom(stretch, top, f + 1, above);
  }

  lemma {:induction false} SuggestFromSaveable(stretch: int -> int, top: int, f: int, above: int)
    requires Tame(stretch) && f >= 2
    ensures Saveable(SuggestFrom(stretch, top, f, above)) <==> AllClear(stretch, top, above, f)
    decreases top - f
  {
    if f > top {
      NothingLeft(stretch, top, f, above);
    } else {
      SuggestFromSaveable(stretch, top, f + 1, above);
      SaveableDown(stretch, top, f, above, SuggestFrom(stretch, top, f + 1, above),
                   SuggestFrom(stretch, top, f, above));
    }
  }

  lemma SaveableDown(stretch: int -> int, top: int, f: int, above: int, rest: seq<int>, whole: seq<int>)
    requires Tame(stretch) && 2 <= f <= top
    requires rest == SuggestFrom(stretch, top, f + 1, above) && whole == SuggestFrom(stretch, top, f, above)
    requires Saveable(rest) <==> AllClear(stretch, top, above, f + 1)
    ensures Saveable(whole) <==> AllClear(stretch, top, above, f)
  {
    RestStarts(stretch, top, f, above);
    SuggestOne(stretch, top, f, above);
    SaveableWhole(stretch, top, f, above, rest, whole);
  }

  lemma SaveableWhole(stretch: int -> int, top: int, f: int, above: int, rest: seq<int>, whole: seq<int>)
    requires Tame(stretch) && 2 <= f <= top && whole == if stretch(f) > above then [stretch(f)] + rest else rest
    requires Saveable(rest) <==> AllClear(stretch, top, above, f + 1)
    requires f == top ==> rest == []
    requires f < top && stretch(f + 1) > above ==> rest != [] && rest[0] == stretch(f + 1)
    ensures Saveable(whole) <==> AllClear(stretch, top, above, f)
  {
    SaveableStep(stretch, top, f, above, rest);
  }

  lemma NothingLeft(stretch: int -> int, top: int, f: int, above: int)
    requires f > top
    ensures Saveable(SuggestFrom(stretch, top, f, above)) && AllClear(stretch, top, above, f)
  {}

  lemma RestStarts(stretch: int -> int, top: int, f: int, above: int)
    requires f <= top
    ensures var rest := SuggestFrom(stretch, top, f + 1, above);
      && (f == top ==> rest == [])
      && (f < top && stretch(f + 1) > above ==> rest != [] && rest[0] == stretch(f + 1))
  {
    if f < top { SuggestOne(stretch, top, f + 1, above); }
  }

  lemma {:induction false} SuggestionsAreAbove(stretch: int -> int, top: int, f: int, above: int)
    ensures AllAtLeast(SuggestFrom(stretch, top, f, above), above + 1)
    decreases top - f
  {
    if f <= top { SuggestionsAreAbove(stretch, top, f + 1, above); }
  }

  /**
   * For every model and every standard context: the suggestions all pass if and only if each
   * factor that is offered stretches the trained context to between 512 and 2^31 - 1 tokens, and
   * to less than the next factor does. (With no trained context nothing is offered.)
   */
  lemma SuggestionsPassExactlyWhen(meta: Meta, standard: Option<int>)
    ensures var out := Suggested(meta, standard); var errors := Errors(AsStages(out), standard, meta);
      (forall i :: 0 <= i < |out| ==> errors[i].None?) <==>
      || meta.nCtxTrain.None? || meta.nCtxTrain.value == 0
      || AllClear(Stretch(meta.nCtxTrain.value), MaxFactor(meta).Floor, if standard.Some? then standard.value else 0, 2)
  {
    var out, above := Suggested(meta, standard), if standard.Some? then standard.value else 0;
    AllPassWhen(AsStages(out), standard, meta);
    if meta.nCtxTrain.Some? && meta.nCtxTrain.value != 0 {
      var stretch := Stretch(meta.nCtxTrain.value);
      StretchIsTame(meta.nCtxTrain.value);
      SuggestFromSaveable(stretch, MaxFactor(meta).Floor, 2, above);
      SuggestionsAreAbove(stretch, MaxFactor(meta).Floor, 2, above);
      SaveableIsIncreasing(out, meta, standard);
    }
  }

  lemma SaveableIsIncreasing(out: seq<int>, meta: Meta, standard: Option<int>)
    requires meta.nCtxTrain.Some? && meta.nCtxTrain.value != 0
    requires AllAtLeast(out, 1 + if standard.Some? then standard.value else 0)
    ensures Increasing(AsStages(out), standard, meta) <==> Saveable(out)
  {
    var stages := AsStages(out);
    forall i | 0 <= i < |out|
      ensures Sound(stages[i], meta) <==> MIN_CTX <= out[i] <= MAX_CTX
      ensures Whole(stages[i]) ==> Tokens(stages[i]) == out[i]
    {
      assert stages[i] == Stage(Num(out[i] as real), None) && (out[i] as real).Floor == out[i];
    }
  }

  lemma AscendingPassWhen(out: seq<int>, meta: Meta, standard: Option<int>)
    requires meta.nCtxTrain.Some? && meta.nCtxTrain.value != 0
    requires AllAtLeast(out, MIN_CTX) && Ascending(out)
    requires AllAtLeast(out, 1 + if standard.Some? then standard.value else 0)
    ensures Increasing(AsStages(out), standard, meta) <==> out == [] || out[|out| - 1] <= MAX_CTX
  {
    var stages := AsStages(out);
    assert forall i :: 0 <= i < |out| ==> Whole(stages[i]) && Tokens(stages[i]) == out[i];
    if out != [] {
      assert Sound(stages[|out| - 1], meta) ==> out[|out| - 1] <= MAX_CTX;
    }
  }

  lemma {:induction false} SuggestFromSteps(stretch: int -> int, steps: int -> int, top: int, f: int, above: int)
    requires above >= 0 && forall g :: stretch(g) == 1024 * steps(g)
    ensures AllAtLeast(SuggestFrom(stretch, top, f, above), 1024)
    decreases top - f
  {
    if f <= top {
      SuggestFromSteps(stretch, steps, top, f + 1, above);
      assert stretch(f) == 1024 * steps(f);
    }
  }

  /** No suggestion is too small: unless the standard context is negative, each is at least 1024. */
  lemma SuggestionsAreNotSmall(meta: Meta, standard: Option<int>)
    requires standard.Some? ==> standard.value >= 0
    ensures AllAtLeast(Suggested(meta, standard), 1024)
  {
    if meta.nCtxTrain.Some? {
      var steps := StretchIsRounded(meta.nCtxTrain.value);
      SuggestFromSteps(Stretch(meta.nCtxTrain.value), steps, MaxFactor(meta).Floor, 2,
                       if standard.Some? then standard.value else 0);
    }
  }

  /** No two neighbouring factors that are offered stretch to the same context, or the second to a smaller one. */
  ghost predicate NoneCollide(stretch: int -> int, top: int, above: int) {
    forall f :: f < top && Offered(stretch, top, above, f) ==> GrowsAt(stretch, f)
  }

  /** Without collisions, an offered factor stretches no further than the largest one, which is offered too. */
  lemma {:induction false} LastIsLargest(stretch: int -> int, top: int, above: int, f: int)
    requires NoneCollide(stretch, top, above) && Offered(stretch, top, above, f)
    ensures Offered(stretch, top, above, top) && stretch(f) <= stretch(top)
    decreases top - f
  {
    if f < top { LastIsLargest(stretch, top, above, f + 1); }
  }

  lemma ClearUnlessCollide(stretch: int -> int, steps: int -> int, top: int, above: int)
    requires above >= 0 && forall g :: stretch(g) == 1024 * steps(g)
    ensures AllClear(stretch, top, above, 2) <==>
            NoneCollide(stretch, top, above) && (Offered(stretch, top, above, top) ==> stretch(top) <= MAX_CTX)
  {
    if NoneCollide(stretch, top, above) && (Offered(stretch, top, above, top) ==> stretch(top) <= MAX_CTX) {
      forall f | 2 <= f && Offered(stretch, top, above, f) ensures Clear(stretch, top, f) {
        assert stretch(f) == 1024 * steps(f);
        LastIsLargest(stretch, top, above, f);
      }
    }
  }

  /**
   * For every model, and every standard context that is not negative: the suggestions all pass if
   * and only if no two neighbouring factors collide after rounding, and the largest factor, when
   * it is offered, stretches to at most 2^31 - 1 tokens.
   */
  lemma SuggestionsPassUnlessTheyCollide(meta: Meta, standard: Option<int>)
    requires standard.Some? ==> standard.value >= 0
    requires meta.nCtxTrain.Some? && meta.nCtxTrain.value != 0
    ensures var out := Suggested(meta, standard); var errors := Errors(AsStages(out), standard, meta);
      var stretch, top := Stretch(meta.nCtxTrain.value), MaxFactor(meta).Floor;
      var above := if standard.Some? then standard.value else 0;
      (forall i :: 0 <= i < |out| ==> errors[i].None?) <==>
      NoneCollide(stretch, top, above) && (Offered(stretch, top, above, top) ==> stretch(top) <= MAX_CTX)
  {
    var trained := meta.nCtxTrain.value;
    var steps := StretchIsRounded(trained);
    SuggestionsPassExactlyWhen(meta, standard);
    ClearUnlessCollide(Stretch(trained), steps, MaxFactor(meta).Floor, if standard.Some? then standard.value else 0);
  }

  /**
   * Below 1024 they can collide. A model trained on 512 tokens is offered 1024, 2048 and 2048,
   * and the third is refused: three times 512 is half way, and rounds up.
   */
  lemma SmallModelsCollide()
    ensures var meta := Meta(Some(512), None);
      Suggested(meta, None) == [1024, 2048, 2048]
      && Errors(AsStages([1024, 2048, 2048]), None, meta) == [None, None, Some(NotAboveStage(2))]
  {
    var meta := Meta(Some(512), None);
    StretchedIs(512, 2);
    StretchedIs(512, 3);
    StretchedIs(512, 4);
    var stretch := Stretch(512);
    assert stretch(2) == 1024 && stretch(3) == 2048 && stretch(4) == 2048;
    assert SuggestFrom(stretch, 4, 5, 0) == [];
    assert SuggestFrom(stretch, 4, 4, 0) == [2048];
    assert SuggestFrom(stretch, 4, 3, 0) == [2048, 2048];
    var stages := AsStages([1024, 2048, 2048]);
    assert Tokens(stages[0]) == 1024 && Tokens(stages[1]) == 2048 && Tokens(stages[2]) == 2048;
    assert ErrorsFrom(stages, 3, 2048, meta) == [];
    assert ErrorsFrom(stages, 2, 2048, meta) == [Some(NotAboveStage(2))];
    assert ErrorsFrom(stages, 1, 1024, meta) == [None, Some(NotAboveStage(2))];
  }
}
