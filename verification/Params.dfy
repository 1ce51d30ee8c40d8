/** Request parameters: what a request may leave open and how far it may go. */
module Params {
  import opened Basics
  import opened StopWindow

  /** A C float, as far as parameter resolution looks at it. */
  datatype Float = NaN | Infinite(negative: bool) | Finite(value: real)

  /** clamp_f */
  function ClampF(v: Float, lo: real, hi: real): Float {
    if v.NaN? || v.Infinite? then Finite(lo)
    else if v.value < lo then Finite(lo)
    else if v.value > hi then Finite(hi)
    else v
  }

  /** clamp_i */
  function ClampI(v: int, lo: int, hi: int): int {
    if v < lo then lo else if v > hi then hi else v
  }

  /** A float parameter: absent (NaN) means the configured default. */
  function ResolveF(requested: Float, default: Float, lo: real, hi: real): Float {
    if requested.NaN? then default else ClampF(requested, lo, hi)
  }

  /** max_tokens: -1 means the configured default. */
  function ResolveMaxTokens(requested: int, default: int, nCtx: int): int {
    if requested == -1 then default else ClampI(requested, 1, nCtx)
  }

  /** An absent parameter is the default; a given one ends in its range, at the near end
      if it was outside, and unchanged if and only if it was inside. Infinity of either
      sign becomes the low end, not the default. */
  lemma ResolvedInRange(requested: Float, default: Float, lo: real, hi: real)
    requires lo <= hi
    ensures var r := ResolveF(requested, default, lo, hi);
            && (requested.NaN? ==> r == default)
            && (!requested.NaN? ==> Within(r, lo, hi) && (r == requested <==> Within(requested, lo, hi)))
            && (requested.Infinite? ==> r == Finite(lo))
            && (requested.Finite? && requested.value < lo ==> r == Finite(lo))
            && (requested.Finite? && requested.value > hi ==> r == Finite(hi))
  {
  }

  predicate Within(v: Float, lo: real, hi: real) { v.Finite? && lo <= v.value <= hi }

  /** The value in use is the default if none was requested, else the value of the range
      that is nearest to the requested one. */
  predicate ResolvesTo(requested: Float, default: Float, used: Float, lo: real, hi: real) {
    if requested.NaN? then used == default
    else
      && Within(used, lo, hi)
      && (used == requested || used == Finite(lo) || used == Finite(hi))
      && (Within(requested, lo, hi) ==> used == requested)
      && (requested.Infinite? || requested.value < lo ==> used == Finite(lo))
      && (requested.Finite? && requested.value > hi ==> used == Finite(hi))
  }

  // ----- all parameters of a request -----

  datatype Settings = Settings(temperature: Float, topP: Float, topK: int, repeatPenalty: Float,
                               maxTokens: int, nCtx: int, maxSeconds: int)

  datatype Request = Request(temperature: Float, topP: Float, repeatPenalty: Float,
                             frequencyPenalty: Float, presencePenalty: Float,
                             maxTokens: int, stops: seq<Text>)

  datatype Sampling = Sampling(temperature: Float, topP: Float, topK: int, repeatPenalty: Float,
                               frequencyPenalty: Float, presencePenalty: Float,
                               maxTokens: int, maxSeconds: int, stops: seq<Text>)

  /** The stop strings as they fit their arrays. */
  function CopiedStops(stops: seq<Text>): (r: seq<Text>)
    ensures |r| == |stops|
    ensures forall i :: 0 <= i < |stops| ==> r[i] <= stops[i] && |r[i]| == if |stops[i]| < 63 then |stops[i]| else 63
  {
    seq(|stops|, i requires 0 <= i < |stops| => Fitted(stops[i], STOP_LEN))
  }

  function Resolved(cfg: Settings, req: Request): Sampling {
    Sampling(ResolveF(req.temperature, cfg.temperature, 0.0, 2.0),
             ResolveF(req.topP, cfg.topP, 0.01, 1.0),
             cfg.topK,
             ResolveF(req.repeatPenalty, cfg.repeatPenalty, 1.0, 2.0),
             ResolveF(req.frequencyPenalty, Finite(0.0), 0.0, 2.0),
             ResolveF(req.presencePenalty, Finite(0.0), 0.0, 2.0),
             ResolveMaxTokens(req.maxTokens, cfg.maxTokens, cfg.nCtx),
             cfg.maxSeconds,
             CopiedStops(req.stops))
  }

  /** The loop that copies the stop strings. */
  method CopyStops(stops: seq<Text>) returns (r: seq<Text>)
    requires |stops| <= STOP_MAX
    ensures r == CopiedStops(stops) && ValidStops(r)
    ensures ValidStops(stops) ==> r == stops
  {
    r := [];
    var i := 0;
    while i < |stops| && i < STOP_MAX
      invariant i <= |stops| && |r| == i
      invariant forall k :: 0 <= k < i ==> r[k] == Fitted(stops[k], STOP_LEN)
    {
      r := r + [Fitted(stops[i], STOP_LEN)];
      i := i + 1;
    }
    forall k | 0 <= k < |stops| ensures ValidStops(stops) ==> r[k] == stops[k] {
      assert stops[k] in stops;
    }
  }

  /** What a request gets: each float is the default or the nearest value of its range, and
      so is the token limit; the rest is as configured. */
  predicate Meets(cfg: Settings, req: Request, p: Sampling) {
    && ResolvesTo(req.temperature, cfg.temperature, p.temperature, 0.0, 2.0)
    && ResolvesTo(req.topP, cfg.topP, p.topP, 0.01, 1.0)
    && ResolvesTo(req.repeatPenalty, cfg.repeatPenalty, p.repeatPenalty, 1.0, 2.0)
    && ResolvesTo(req.frequencyPenalty, Finite(0.0), p.frequencyPenalty, 0.0, 2.0)
    && ResolvesTo(req.presencePenalty, Finite(0.0), p.presencePenalty, 0.0, 2.0)
    && p.topK == cfg.topK && p.maxSeconds == cfg.maxSeconds
    && (req.maxTokens == -1 ==> p.maxTokens == cfg.maxTokens)
    && (req.maxTokens != -1 && cfg.nCtx >= 1 ==>
         && 1 <= p.maxTokens <= cfg.nCtx
         && (p.maxTokens == req.maxTokens || (p.maxTokens == 1 && req.maxTokens < 1)
             || (p.maxTokens == cfg.nCtx && req.maxTokens > cfg.nCtx)))
  }

  lemma FloatMeets(requested: Float, default: Float, lo: real, hi: real)
    requires lo <= hi
    ensures ResolvesTo(requested, default, ResolveF(requested, default, lo, hi), lo, hi)
  {
  }

  lemma ResolvedMeets(cfg: Settings, req: Request)
    ensures Meets(cfg, req, Resolved(cfg, req))
  {
    FloatMeets(req.temperature, cfg.temperature, 0.0, 2.0);
    FloatMeets(req.topP, cfg.topP, 0.01, 1.0);
    FloatMeets(req.repeatPenalty, cfg.repeatPenalty, 1.0, 2.0);
    FloatMeets(req.frequencyPenalty, Finite(0.0), 0.0, 2.0);
    FloatMeets(req.presencePenalty, Finite(0.0), 0.0, 2.0);
  }

  /** inference_resolve_params */
  method ResolveChat(cfg: Settings, req: Request) returns (p: Sampling)
    requires |req.stops| <= STOP_MAX
    ensures p == Resolved(cfg, req)
    ensures Meets(cfg, req, p)
    ensures ValidStops(p.stops) && (ValidStops(req.stops) ==> p.stops == req.stops)
  {
    ResolvedMeets(cfg, req);
    var stops := CopyStops(req.stops);
    p := Sampling(
      if req.temperature.NaN? then cfg.temperature else ClampF(req.temperature, 0.0, 2.0),
      if req.topP.NaN? then cfg.topP else ClampF(req.topP, 0.01, 1.0),
      cfg.topK,
      if req.repeatPenalty.NaN? then cfg.repeatPenalty else ClampF(req.repeatPenalty, 1.0, 2.0),
      if req.frequencyPenalty.NaN? then Finite(0.0) else ClampF(req.frequencyPenalty, 0.0, 2.0),
      if req.presencePenalty.NaN? then Finite(0.0) else ClampF(req.presencePenalty, 0.0, 2.0),
      if req.maxTokens == -1 then cfg.maxTokens else ClampI(req.maxTokens, 1, cfg.nCtx),
      cfg.maxSeconds, stops);
  }

  /** inference_resolve_params_completion: the same as for a chat request that leaves both
      penalties out, whatever the request says about them. */
  method ResolveCompletion(cfg: Settings, req: Request) returns (p: Sampling)
    requires |req.stops| <= STOP_MAX
    ensures p == Resolved(cfg, req.(frequencyPenalty := NaN, presencePenalty := NaN))
    ensures Meets(cfg, req.(frequencyPenalty := NaN, presencePenalty := NaN), p)
    ensures p.frequencyPenalty == p.presencePenalty == Finite(0.0)
    ensures ValidStops(p.stops) && (ValidStops(req.stops) ==> p.stops == req.stops)
  {
    ResolvedMeets(cfg, req.(frequencyPenalty := NaN, presencePenalty := NaN));
    var stops := CopyStops(req.stops);
    p := Sampling(
      if req.temperature.NaN? then cfg.temperature else ClampF(req.temperature, 0.0, 2.0),
      if req.topP.NaN? then cfg.topP else ClampF(req.topP, 0.01, 1.0),
      cfg.topK,
      if req.repeatPenalty.NaN? then cfg.repeatPenalty else ClampF(req.repeatPenalty, 1.0, 2.0),
      Finite(0.0), Finite(0.0),
      if req.maxTokens == -1 then cfg.maxTokens else ClampI(req.maxTokens, 1, cfg.nCtx),
      cfg.maxSeconds, stops);
  }

  /** Every float that the sampler gets is in its range. */
  predicate AllWithin(p: Sampling) {
    && Within(p.temperature, 0.0, 2.0) && Within(p.topP, 0.01, 1.0) && Within(p.repeatPenalty, 1.0, 2.0)
    && Within(p.frequencyPenalty, 0.0, 2.0) && Within(p.presencePenalty, 0.0, 2.0)
  }

  /** The request that leaves everything open. */
  const OPEN: Request := Request(NaN, NaN, NaN, NaN, NaN, -1, [])

  /** Every request runs with floats in range if and only if the configured ones are;
      config_validate does not look at them. */
  lemma AllWithinIff(cfg: Settings)
    ensures (forall req :: AllWithin(Resolved(cfg, req)))
            <==> Within(cfg.temperature, 0.0, 2.0) && Within(cfg.topP, 0.01, 1.0)
                 && Within(cfg.repeatPenalty, 1.0, 2.0)
  {
    if forall req :: AllWithin(Resolved(cfg, req)) {
      assert AllWithin(Resolved(cfg, OPEN));
    }
  }

  // ----- the context budget -----

  const INT_MAX: int := 0x7FFF_FFFF

  predicate Int32(v: int) { -INT_MAX - 1 <= v <= INT_MAX }

  /** The value an int32_t holds after a conversion or a wrapping sum. */
  function Wrap32(v: int): (r: int)
    ensures Int32(r)
    ensures Int32(v) ==> r == v
  {
    (v + INT_MAX + 1) % (2 * INT_MAX + 2) - INT_MAX - 1
  }

  /** What config_validate establishes about the numbers used here. */
  predicate ValidConfig(nCtx: int, maxTokens: int) {
    0 < maxTokens <= nCtx <= INT_MAX
  }

  /** max_gen: the token limit, cut to what the context leaves. */
  function MaxGen(nPrompt: int, maxTokens: int, nCtx: int): int {
    if Wrap32(nPrompt + maxTokens) > nCtx then nCtx - nPrompt else maxTokens
  }

  /** Across the files: a validated configuration and any request leave a positive
      number of tokens; prompt and completion together fit the context if and only if
      the 32-bit sum does not overflow, for which n_ctx up to 2^30 is enough. */
  lemma Budget(nCtx: int, default: int, requested: int, nPrompt: int)
    requires ValidConfig(nCtx, default) && 0 <= nPrompt < nCtx
    ensures var max := ResolveMaxTokens(requested, default, nCtx);
            var gen := MaxGen(nPrompt, max, nCtx);
            && 1 <= max <= nCtx && 1 <= gen <= max
            && (requested == -1 ==> max == default) && (1 <= requested <= nCtx ==> max == requested)
            && (requested > nCtx ==> max == nCtx) && (requested < 1 && requested != -1 ==> max == 1)
            && (nPrompt + gen <= nCtx <==> Int32(nPrompt + max))
            && (Int32(nPrompt + max) && gen < max ==> nPrompt + gen == nCtx)
            && (nCtx <= 0x4000_0000 ==> Int32(nPrompt + max))
  {
  }

  /** The sum of prompt tokens and resolved limit fits an int32_t. */
  predicate SumFits(requested: int, nPrompt: int, default: int, nCtx: int) {
    Int32(nPrompt + ResolveMaxTokens(requested, default, nCtx))
  }

  /** The sum cannot overflow for any request exactly if n_ctx is at most 2^30. */
  lemma NoOverflowIff(nCtx: int, default: int)
    requires ValidConfig(nCtx, default)
    ensures (forall requested, nPrompt :: 0 <= nPrompt < nCtx ==> SumFits(requested, nPrompt, default, nCtx))
            <==> nCtx <= 0x4000_0000
  {
    if nCtx > 0x4000_0000 {
      assert !SumFits(nCtx, nCtx - 1, default, nCtx);
    }
  }
}
