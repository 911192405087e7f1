/**
 AI cost arithmetic over exact reals: how a prompt is crossed by cache and modality, what each
 session costs, and where money is rounded. Counters are nullable integers.
 */
module Price {
  import opened RealArithmetic
  import opened Options

  const TOKENS_PER_RATE_UNIT := 1000000.0
  const MONEY_PRECISION := 1000000.0

  const OPENAI_REALTIME := "openai-realtime"
  const GEMINI_LIVE := "gemini-live"

  function RoundMoney(value: real): real {
    Round(value * MONEY_PRECISION) as real / MONEY_PRECISION
  }

  /** A rounded amount is within half a millionth, and rounding it again changes nothing. */
  lemma RoundMoneyNear(value: real)
    ensures -0.0000005 <= RoundMoney(value) - value <= 0.0000005
  {
  }

  predicate WholeMillionths(value: real) {
    value * MONEY_PRECISION == (value * MONEY_PRECISION).Floor as real
  }

  lemma WholeIsRounded(value: real)
    requires WholeMillionths(value)
    ensures RoundMoney(value) == value
  {
    var k := (value * MONEY_PRECISION).Floor;
    RoundOfWhole(k);
  }

  lemma RoundOfWhole(k: int)
    ensures Round(k as real) == k
  {
  }

  lemma WholeAdds(a: real, b: real)
    requires WholeMillionths(a) && WholeMillionths(b)
    ensures WholeMillionths(a + b)
  {
    var x, y := (a * MONEY_PRECISION).Floor, (b * MONEY_PRECISION).Floor;
    FloorOfWhole((a + b) * MONEY_PRECISION, x + y);
  }

  lemma FloorOfWhole(value: real, k: int)
    requires value == k as real
    ensures value == value.Floor as real
  {
  }

  // ------------------------------------------------------------------
  // Rates and counters
  // ------------------------------------------------------------------

  datatype ProviderRates = ProviderRates(
    textInput: real, textInputCached: real, audioInput: real, audioInputCached: real, textOutput: real, audioOutput: real)

  datatype TranscribeRates = TranscribeRates(audioInput: real, textOutput: real)

  datatype AnalysisRates = AnalysisRates(input: real, cachedInput: real, output: real)

  datatype RateTable = RateTable(
    openaiRealtime: ProviderRates, geminiLive: ProviderRates, transcribe: TranscribeRates, analysis: AnalysisRates)

  type Counter = Option<int>

  datatype SessionTokens = SessionTokens(
    prompt: Counter, cachedPrompt: Counter, inputText: Counter, inputAudio: Counter,
    cachedAudio: Counter, cachedText: Counter, completion: Counter, outputText: Counter, outputAudio: Counter,
    transcribeAudio: Counter, transcribeText: Counter)

  datatype AnalysisTokens = AnalysisTokens(prompt: int, cachedPrompt: int, completion: int, billedRuns: int)

  /** Missing and negative counters read as zero. */
  function ToCount(value: Counter): nat {
    if value.None? || value.value < 0 then 0 else value.value
  }

  function MinInt(a: int, b: int): int {
    if a <= b then a else b
  }

  function RatesFor(rates: RateTable, provider: string): Option<ProviderRates> {
    if provider == OPENAI_REALTIME then Some(rates.openaiRealtime)
    else if provider == GEMINI_LIVE then Some(rates.geminiLive)
    else None
  }

  predicate Priced(r: ProviderRates) {
    !(r.textInput == 0.0 && r.textInputCached == 0.0 && r.audioInput == 0.0 && r.audioInputCached == 0.0
      && r.textOutput == 0.0 && r.audioOutput == 0.0)
  }

  predicate HasAnyUsage(t: SessionTokens) {
    ToCount(t.prompt) > 0 || ToCount(t.completion) > 0 || ToCount(t.transcribeAudio) > 0 || ToCount(t.transcribeText) > 0
  }

  /** The two reported decompositions of a prompt: by cache and by modality. */
  datatype Marginals = Marginals(cached: nat, uncached: nat, inputAudio: nat, inputText: nat, prompt: nat)

  function MarginalsOf(t: SessionTokens): (v: Marginals)
    ensures v.cached + v.uncached == v.prompt
  {
    var prompt := ToCount(t.prompt);
    var cached := MinInt(ToCount(t.cachedPrompt), prompt);
    Marginals(cached, prompt - cached, ToCount(t.inputAudio), ToCount(t.inputText), prompt)
  }

  // ------------------------------------------------------------------
  // The input side
  // ------------------------------------------------------------------

  datatype InputCells = InputCells(freshAudio: real, freshText: real, cachedAudio: real, cachedText: real, exact: bool)

  predicate HasMeasuredCacheSplit(t: SessionTokens, v: Marginals) {
    && t.cachedAudio.Some? && t.cachedText.Some?
    && t.cachedAudio.value >= 0 && t.cachedText.value >= 0
    && t.cachedAudio.value <= v.inputAudio && t.cachedText.value <= v.inputText
    && t.cachedAudio.value + t.cachedText.value == v.cached
    && v.inputAudio + v.inputText == v.prompt
  }

  predicate ColdCache(v: Marginals) {
    v.cached == 0 && v.inputAudio + v.inputText > 0
  }

  function AudioShare(v: Marginals): real {
    if v.inputAudio + v.inputText > 0 then v.inputAudio as real / (v.inputAudio + v.inputText) as real else 1.0
  }

  function Part(whole: real, share: real): real {
    whole * share
  }

  function SplitInput(t: SessionTokens, v: Marginals): InputCells {
    if HasMeasuredCacheSplit(t, v) then
      InputCells((v.inputAudio - t.cachedAudio.value) as real, (v.inputText - t.cachedText.value) as real,
        t.cachedAudio.value as real, t.cachedText.value as real, true)
    else if ColdCache(v) then
      var residual := MaxInt(0, v.prompt - (v.inputAudio + v.inputText));
      InputCells(v.inputAudio as real, (v.inputText + residual) as real, 0.0, 0.0, residual == 0)
    else
      var freshAudio, cachedAudio := Part(v.uncached as real, AudioShare(v)), Part(v.cached as real, AudioShare(v));
      InputCells(freshAudio, v.uncached as real - freshAudio, cachedAudio, v.cached as real - cachedAudio, false)
  }

  function SumOfCells(c: InputCells): real {
    c.freshAudio + c.freshText + c.cachedAudio + c.cachedText
  }

  lemma ShareInUnit(v: Marginals)
    ensures 0.0 <= AudioShare(v) <= 1.0
  {
  }

  lemma PartWithin(whole: real, share: real)
    requires whole >= 0.0 && 0.0 <= share <= 1.0
    ensures 0.0 <= Part(whole, share) <= whole
  {
  }

  /** Measured and apportioned cells are non-negative, keep both cache marginals and sum to the prompt. */
  lemma CellsKeepCacheMarginals(t: SessionTokens)
    requires HasMeasuredCacheSplit(t, MarginalsOf(t)) || !ColdCache(MarginalsOf(t))
    ensures var (v, c) := (MarginalsOf(t), SplitInput(t, MarginalsOf(t)));
      && c.freshAudio >= 0.0 && c.freshText >= 0.0 && c.cachedAudio >= 0.0 && c.cachedText >= 0.0
      && c.freshAudio + c.freshText == v.uncached as real
      && c.cachedAudio + c.cachedText == v.cached as real
      && SumOfCells(c) == v.prompt as real
  {
    var v := MarginalsOf(t);
    ShareInUnit(v);
    PartWithin(v.uncached as real, AudioShare(v));
    PartWithin(v.cached as real, AudioShare(v));
  }

  /** On a cold row the cells are non-negative and sum to the larger of the prompt and the modalities. */
  lemma ColdCellsSum(t: SessionTokens)
    requires ColdCache(MarginalsOf(t))
    ensures var (v, c) := (MarginalsOf(t), SplitInput(t, MarginalsOf(t)));
      && c.freshAudio >= 0.0 && c.freshText >= 0.0 && c.cachedAudio == 0.0 && c.cachedText == 0.0
      && SumOfCells(c) == MaxInt(v.prompt, v.inputAudio + v.inputText) as real
  {
  }

  /** `exact` means that the audio and the text cells add up to the reported modality counts. */
  lemma ExactCellsAreReported(t: SessionTokens)
    requires SplitInput(t, MarginalsOf(t)).exact
    ensures var (v, c) := (MarginalsOf(t), SplitInput(t, MarginalsOf(t)));
      && c.freshAudio + c.cachedAudio == v.inputAudio as real
      && c.freshText + c.cachedText == v.inputText as real
  {
  }

  /** The cells sum to the prompt on every row but a cold one whose modalities exceed it. */
  lemma CellsSumToPromptExactly(t: SessionTokens)
    ensures var v := MarginalsOf(t);
      SumOfCells(SplitInput(t, v)) == v.prompt as real <==>
        !(ColdCache(v) && v.inputAudio + v.inputText > v.prompt)
  {
  }

  /** Halfway between two whole numbers, where rounding goes up. */
  predicate Tie(x: real) {
    x - x.Floor as real == 0.5
  }

  lemma RoundedParts(marginal: int, part: real)
    ensures Round(part) + Round(marginal as real - part) == marginal + if Tie(part) then 1 else 0
  {
    var k := part.Floor;
    var fraction := part - k as real;
    FloorIs(part + 0.5, if fraction < 0.5 then k else k + 1);
    FloorIs(marginal as real - part + 0.5, if fraction <= 0.5 then marginal - k else marginal - k - 1);
  }

  /**
   The displayed cells are rounded one by one. The two of a cache marginal add up to it, or to one
   more exactly on a tie; on a cold row there is nothing to round.
   */
  lemma DisplayedCellsSum(t: SessionTokens)
    ensures var (v, c) := (MarginalsOf(t), SplitInput(t, MarginalsOf(t)));
      if HasMeasuredCacheSplit(t, v) || !ColdCache(v) then
        && Round(c.freshAudio) + Round(c.freshText) == v.uncached + (if Tie(c.freshAudio) then 1 else 0)
        && Round(c.cachedAudio) + Round(c.cachedText) == v.cached + (if Tie(c.cachedAudio) then 1 else 0)
      else
        Round(c.freshAudio) + Round(c.freshText) == MaxInt(v.prompt, v.inputAudio + v.inputText)
        && Round(c.cachedAudio) == 0 == Round(c.cachedText)
  {
    var (v, c) := (MarginalsOf(t), SplitInput(t, MarginalsOf(t)));
    if HasMeasuredCacheSplit(t, v) || !ColdCache(v) {
      CellsKeepCacheMarginals(t);
      RoundedParts(v.uncached, c.freshAudio);
      RoundedParts(v.cached, c.cachedAudio);
    }
  }

  /** A tie does occur: one fresh and one cached token, half of the prompt audio. */
  lemma DisplayedCellsCanOvershoot()
    ensures exists t :: var (v, c) := (MarginalsOf(t), SplitInput(t, MarginalsOf(t)));
      !ColdCache(v) && Round(c.freshAudio) + Round(c.freshText) > v.uncached
  {
    var t := SessionTokens(Some(2), Some(1), Some(1), Some(1), None, None, None, None, None, None, None);
    var v := MarginalsOf(t);
    assert AudioShare(v) == 0.5 && !ColdCache(v);
    assert SplitInput(t, v).freshAudio == 0.5;
  }

  lemma FloorIs(x: real, k: int)
    requires k as real <= x < k as real + 1.0
    ensures x.Floor == k
  {
  }

  // ------------------------------------------------------------------
  // The output side
  // ------------------------------------------------------------------

  datatype OutputCells = OutputCells(audio: nat, text: nat, assumed: bool)

  function SplitOutput(t: SessionTokens): OutputCells {
    var completion, audio, text := ToCount(t.completion), ToCount(t.outputAudio), ToCount(t.outputText);
    if completion > 0 && audio + text == 0 then OutputCells(completion, 0, true) else OutputCells(audio, text, false)
  }

  /** Output cells sum to the completion exactly when it was reported so, or not split at all. */
  lemma OutputSumsExactly(t: SessionTokens)
    ensures var o := SplitOutput(t);
      o.audio + o.text == ToCount(t.completion) <==>
        || ToCount(t.outputAudio) + ToCount(t.outputText) == ToCount(t.completion)
        || ToCount(t.outputAudio) + ToCount(t.outputText) == 0
  {
  }

  /** It fails for a completion of 100 reported as 30 of audio and 10 of text. */
  lemma OutputCanFallShort()
    ensures exists t :: SplitOutput(t).audio + SplitOutput(t).text != ToCount(t.completion)
  {
    var t := SessionTokens(None, None, None, None, None, None, Some(100), Some(10), Some(30), None, None);
    assert SplitOutput(t).audio + SplitOutput(t).text == 40;
  }

  // ------------------------------------------------------------------
  // Prices
  // ------------------------------------------------------------------

  datatype Unpriced = NoBreakdown | NoUsage | ProviderNotPriced | RatesNotSet

  datatype VoiceCost = VoiceCost(cost: Option<real>, reason: Option<Unpriced>, estimated: bool, modalityAssumed: bool)

  /** Why a session cannot be priced, if it cannot. */
  function WhyUnpriced(t: SessionTokens, provider: string, rates: RateTable): Option<Unpriced> {
    if !HasAnyUsage(t) then Some(NoUsage)
    else if t.cachedPrompt.None? then Some(NoBreakdown)
    else
      var r := RatesFor(rates, provider);
      if r.None? then Some(ProviderNotPriced)
      else if !Priced(r.value) then Some(RatesNotSet)
      else None
  }

  function InputCost(c: InputCells, r: ProviderRates): real {
    (c.freshAudio * r.audioInput + c.freshText * r.textInput + c.cachedAudio * r.audioInputCached
      + c.cachedText * r.textInputCached) / TOKENS_PER_RATE_UNIT
  }

  function OutputCost(o: OutputCells, r: ProviderRates): real {
    (o.audio as real * r.audioOutput + o.text as real * r.textOutput) / TOKENS_PER_RATE_UNIT
  }

  function RawVoiceCost(t: SessionTokens, r: ProviderRates): real {
    InputCost(SplitInput(t, MarginalsOf(t)), r) + OutputCost(SplitOutput(t), r)
  }

  function PriceVoiceSession(t: SessionTokens, provider: string, rates: RateTable): VoiceCost {
    var why := WhyUnpriced(t, provider, rates);
    if why.Some? then VoiceCost(None, why, false, false)
    else
      var v, output := MarginalsOf(t), SplitOutput(t);
      var assumed := v.prompt > 0 && v.inputAudio + v.inputText == 0;
      VoiceCost(Some(RoundMoney(RawVoiceCost(t, RatesFor(rates, provider).value))), None,
        !SplitInput(t, v).exact || assumed || output.assumed, assumed || output.assumed)
  }

  function RawTranscription(t: SessionTokens, rates: RateTable): real {
    (ToCount(t.transcribeAudio) as real * rates.transcribe.audioInput
      + ToCount(t.transcribeText) as real * rates.transcribe.textOutput) / TOKENS_PER_RATE_UNIT
  }

  function PriceTranscription(t: SessionTokens, provider: string, rates: RateTable): Option<real> {
    if provider == GEMINI_LIVE then Some(0.0)
    else if t.transcribeAudio.None? && t.transcribeText.None? then None
    else Some(RoundMoney(RawTranscription(t, rates)))
  }

  function RawAnalysis(a: AnalysisTokens, rates: RateTable): real {
    var prompt := ToCount(Some(a.prompt));
    var cached := MinInt(ToCount(Some(a.cachedPrompt)), prompt);
    ((prompt - cached) as real * rates.analysis.input + cached as real * rates.analysis.cachedInput
      + ToCount(Some(a.completion)) as real * rates.analysis.output) / TOKENS_PER_RATE_UNIT
  }

  function PriceAnalysis(a: Option<AnalysisTokens>, rates: RateTable): Option<real> {
    if a.None? || a.value.billedRuns <= 0 then None else Some(RoundMoney(RawAnalysis(a.value, rates)))
  }

  datatype SessionCost = SessionCost(total: Option<real>, partial: bool, estimated: bool)

  function OrZero(x: Option<real>): real {
    if x.Some? then x.value else 0.0
  }

  function PriceSession(t: SessionTokens, provider: string, a: Option<AnalysisTokens>, rates: RateTable): SessionCost {
    var voice := PriceVoiceSession(t, provider, rates);
    var transcription, analysis := PriceTranscription(t, provider, rates), PriceAnalysis(a, rates);
    var partial := transcription.None? || analysis.None?;
    if voice.cost.None? then SessionCost(None, partial, false)
    else SessionCost(Some(RoundMoney(voice.cost.value + OrZero(transcription) + OrZero(analysis))), partial, voice.estimated)
  }

  /** The sum of the known lines before any of them is rounded. */
  function RawTotal(t: SessionTokens, provider: string, a: Option<AnalysisTokens>, rates: RateTable, r: ProviderRates): real {
    RawVoiceCost(t, r)
    + (if provider == GEMINI_LIVE || PriceTranscription(t, provider, rates).None? then 0.0 else RawTranscription(t, rates))
    + (if PriceAnalysis(a, rates).None? then 0.0 else RawAnalysis(a.value, rates))
  }

  // ------------------------------------------------------------------
  // Which rows are priced, measured, estimated
  // ------------------------------------------------------------------

  /** A counter reads as what was reported, and as nothing when that is missing or below zero. */
  lemma CountExactly(value: Counter, n: nat)
    ensures ToCount(value) == n <==> value == Some(n) || (n == 0 && (value.None? || value.value < 0))
  {
  }

  ghost predicate Unused(counter: Counter) {
    counter.None? || counter.value <= 0
  }

  ghost predicate AllZero(r: ProviderRates) {
    && r.textInput == 0.0 && r.textInputCached == 0.0 && r.textOutput == 0.0
    && r.audioInput == 0.0 && r.audioInputCached == 0.0 && r.audioOutput == 0.0
  }

  /** The reason given is the first that applies: nothing used, no cache split, another provider, no rates. */
  lemma ReasonExactly(t: SessionTokens, provider: string, rates: RateTable)
    ensures var unused := Unused(t.prompt) && Unused(t.completion) && Unused(t.transcribeAudio) && Unused(t.transcribeText);
      var known := provider == "openai-realtime" || provider == "gemini-live";
      var free := if provider == "openai-realtime" then AllZero(rates.openaiRealtime) else AllZero(rates.geminiLive);
      && (WhyUnpriced(t, provider, rates) == Some(NoUsage) <==> unused)
      && (WhyUnpriced(t, provider, rates) == Some(NoBreakdown) <==> !unused && t.cachedPrompt.None?)
      && (WhyUnpriced(t, provider, rates) == Some(ProviderNotPriced) <==> !unused && t.cachedPrompt.Some? && !known)
      && (WhyUnpriced(t, provider, rates) == Some(RatesNotSet) <==> !unused && t.cachedPrompt.Some? && known && free)
  {
  }

  /** A priced session is charged at its own provider's rates. */
  lemma ChargedAtOwnRates(t: SessionTokens, provider: string, rates: RateTable)
    requires PriceVoiceSession(t, provider, rates).cost.Some?
    ensures provider == "openai-realtime" ==>
      PriceVoiceSession(t, provider, rates).cost == Some(RoundMoney(RawVoiceCost(t, rates.openaiRealtime)))
    ensures provider == "gemini-live" ==>
      PriceVoiceSession(t, provider, rates).cost == Some(RoundMoney(RawVoiceCost(t, rates.geminiLive)))
    ensures provider == "openai-realtime" || provider == "gemini-live"
  {
  }

  /** The reported cells are consistent with both marginals. */
  ghost predicate Consistent(t: SessionTokens, v: Marginals) {
    && t.cachedAudio.Some? && t.cachedText.Some?
    && 0 <= t.cachedAudio.value <= v.inputAudio && 0 <= t.cachedText.value <= v.inputText
    && t.cachedAudio.value + t.cachedText.value == v.cached && v.inputAudio + v.inputText == v.prompt
  }

  /** A split is exact when its cells were reported consistently, or with a cold cache and nothing left over, and only then. */
  lemma ExactExactly(t: SessionTokens)
    ensures var (v, c) := (MarginalsOf(t), SplitInput(t, MarginalsOf(t)));
      c.exact <==>
        || Consistent(t, v)
        || (v.cached == 0 && v.inputAudio + v.inputText > 0 && v.prompt <= v.inputAudio + v.inputText)
  {
  }

  /** Consistent cells are used as reported. */
  lemma ReportedCellsAreUsed(t: SessionTokens)
    requires Consistent(t, MarginalsOf(t))
    ensures var (v, c) := (MarginalsOf(t), SplitInput(t, MarginalsOf(t)));
      && c.cachedAudio == t.cachedAudio.value as real && c.cachedText == t.cachedText.value as real
      && c.freshAudio + c.cachedAudio == v.inputAudio as real && c.freshText + c.cachedText == v.inputText as real
  {
  }

  /** Otherwise a warm row is split in the proportion of its modalities, all audio when there are none. */
  lemma WarmCellsAreProportional(t: SessionTokens)
    requires var v := MarginalsOf(t); !Consistent(t, v) && (v.cached > 0 || v.inputAudio + v.inputText == 0)
    ensures var (v, c) := (MarginalsOf(t), SplitInput(t, MarginalsOf(t)));
      var (audio, total) := (v.inputAudio as real, (v.inputAudio + v.inputText) as real);
      if total > 0.0 then c.freshAudio * total == v.uncached as real * audio && c.cachedAudio * total == v.cached as real * audio
      else c.freshText == 0.0 && c.cachedText == 0.0
  {
    var v := MarginalsOf(t);
    if v.inputAudio + v.inputText > 0 {
      ShareOf(v.uncached as real, v.inputAudio as real, (v.inputAudio + v.inputText) as real);
      ShareOf(v.cached as real, v.inputAudio as real, (v.inputAudio + v.inputText) as real);
    }
  }

  lemma ShareOf(whole: real, audio: real, total: real)
    requires total > 0.0
    ensures Part(whole, audio / total) * total == whole * audio
  {
    DivCancel(audio, total);
    var share := audio / total;
    assert (whole * share) * total == whole * (share * total);
  }

  /** A cold row keeps its modalities and charges what is left over as text. */
  lemma ColdCellsAreReported(t: SessionTokens)
    requires ColdCellsApply(t)
    ensures var (v, c) := (MarginalsOf(t), SplitInput(t, MarginalsOf(t)));
      && c.freshAudio == v.inputAudio as real
      && c.freshText == MaxInt(v.inputText, v.prompt - v.inputAudio) as real
  {
  }

  ghost predicate ColdCellsApply(t: SessionTokens) {
    var v := MarginalsOf(t);
    v.cached == 0 && v.inputAudio + v.inputText > 0 && !Consistent(t, v)
  }

  /** Neither output modality was reported for a completion: then, and only then, it is taken to be all audio. */
  lemma OutputAssumedExactly(t: SessionTokens)
    ensures SplitOutput(t).assumed <==> !Unused(t.completion) && Unused(t.outputAudio) && Unused(t.outputText)
    ensures SplitOutput(t).assumed ==> SplitOutput(t).audio == t.completion.value && SplitOutput(t).text == 0
  {
  }

  /** What a price says about its own accuracy, and which lines are known. */
  lemma FlagsExactly(t: SessionTokens, provider: string, a: Option<AnalysisTokens>, rates: RateTable)
    ensures var (voice, v) := (PriceVoiceSession(t, provider, rates), MarginalsOf(t));
      var assumed := (v.prompt > 0 && v.inputAudio == 0 && v.inputText == 0) || SplitOutput(t).assumed;
      && (voice.modalityAssumed <==> voice.cost.Some? && assumed)
      && (voice.estimated <==> voice.cost.Some? && (assumed || !SplitInput(t, v).exact))
    ensures PriceTranscription(t, provider, rates).None? <==>
      provider != "gemini-live" && t.transcribeAudio.None? && t.transcribeText.None?
    ensures provider == "gemini-live" ==> PriceTranscription(t, provider, rates) == Some(0.0)
    ensures PriceAnalysis(a, rates).None? <==> a.None? || a.value.billedRuns <= 0
    ensures var s := PriceSession(t, provider, a, rates);
      && (s.partial <==> PriceTranscription(t, provider, rates).None? || PriceAnalysis(a, rates).None?)
      && (s.estimated <==> PriceVoiceSession(t, provider, rates).estimated)
  {
  }

  // ------------------------------------------------------------------
  // What a token costs
  // ------------------------------------------------------------------

  /** No tokens cost nothing, and one more token of a cell costs exactly its own rate. */
  lemma InputTokenCosts(c: InputCells, r: ProviderRates)
    ensures InputCost(InputCells(0.0, 0.0, 0.0, 0.0, c.exact), r) == 0.0
    ensures InputCost(c.(freshAudio := c.freshAudio + 1.0), r) == InputCost(c, r) + r.audioInput / 1000000.0
    ensures InputCost(c.(freshText := c.freshText + 1.0), r) == InputCost(c, r) + r.textInput / 1000000.0
    ensures InputCost(c.(cachedAudio := c.cachedAudio + 1.0), r) == InputCost(c, r) + r.audioInputCached / 1000000.0
    ensures InputCost(c.(cachedText := c.cachedText + 1.0), r) == InputCost(c, r) + r.textInputCached / 1000000.0
  {
  }

  lemma OutputTokenCosts(o: OutputCells, r: ProviderRates)
    ensures OutputCost(o.(audio := 0, text := 0), r) == 0.0
    ensures OutputCost(o.(audio := o.audio + 1), r) == OutputCost(o, r) + r.audioOutput / 1000000.0
    ensures OutputCost(o.(text := o.text + 1), r) == OutputCost(o, r) + r.textOutput / 1000000.0
  {
  }

  /** Input and output add up: one more reported output token costs its rate whatever the input. */
  lemma VoiceTokenCosts(t: SessionTokens, r: ProviderRates)
    requires ToCount(t.outputAudio) + ToCount(t.outputText) > 0
    ensures RawVoiceCost(t.(outputAudio := Some(ToCount(t.outputAudio) + 1)), r) == RawVoiceCost(t, r) + r.audioOutput / 1000000.0
    ensures RawVoiceCost(t.(outputText := Some(ToCount(t.outputText) + 1)), r) == RawVoiceCost(t, r) + r.textOutput / 1000000.0
  {
    var audio, text := t.(outputAudio := Some(ToCount(t.outputAudio) + 1)), t.(outputText := Some(ToCount(t.outputText) + 1));
    assert SplitInput(audio, MarginalsOf(audio)) == SplitInput(t, MarginalsOf(t)) == SplitInput(text, MarginalsOf(text));
    OutputTokenCosts(SplitOutput(t), r);
    assert SplitOutput(audio) == SplitOutput(t).(audio := SplitOutput(t).audio + 1);
    assert SplitOutput(text) == SplitOutput(t).(text := SplitOutput(t).text + 1);
  }

  lemma TranscriptionTokenCosts(t: SessionTokens, rates: RateTable)
    ensures RawTranscription(t.(transcribeAudio := Some(0), transcribeText := Some(0)), rates) == 0.0
    ensures RawTranscription(t.(transcribeAudio := Some(ToCount(t.transcribeAudio) + 1)), rates)
         == RawTranscription(t, rates) + rates.transcribe.audioInput / 1000000.0
    ensures RawTranscription(t.(transcribeText := Some(ToCount(t.transcribeText) + 1)), rates)
         == RawTranscription(t, rates) + rates.transcribe.textOutput / 1000000.0
  {
  }

  lemma AnalysisTokenCosts(a: AnalysisTokens, rates: RateTable)
    requires a.prompt >= 0 && a.completion >= 0
    ensures RawAnalysis(a.(prompt := 0, completion := 0), rates) == 0.0
    ensures RawAnalysis(a.(completion := a.completion + 1), rates)
         == RawAnalysis(a, rates) + rates.analysis.output / 1000000.0
    ensures 0 <= a.cachedPrompt <= a.prompt ==>
      RawAnalysis(a.(prompt := a.prompt + 1), rates) == RawAnalysis(a, rates) + rates.analysis.input / 1000000.0
    ensures 0 <= a.cachedPrompt < a.prompt ==>
      RawAnalysis(a.(cachedPrompt := a.cachedPrompt + 1), rates)
        == RawAnalysis(a, rates) + (rates.analysis.cachedInput - rates.analysis.input) / 1000000.0
    ensures a.cachedPrompt >= a.prompt ==> RawAnalysis(a, rates) == RawAnalysis(a.(cachedPrompt := a.prompt), rates)
  {
  }

  lemma LineNear(raw: real, known: bool)
    ensures var line := if known then RoundMoney(raw) else 0.0;
      && WholeMillionths(line)
      && -0.0000005 <= line - (if known then raw else 0.0) <= 0.0000005
  {
  }

  lemma LinesAdd(x: real, y: real, z: real)
    requires WholeMillionths(x) && WholeMillionths(y) && WholeMillionths(z)
    ensures RoundMoney(x + y + z) == x + y + z
  {
    WholeAdds(x, y);
    WholeAdds(x + y, z);
    WholeIsRounded(x + y + z);
  }

  /**
   A priced total is the sum of its rounded lines, which the final rounding does not change, and
   is within 1.5 millionths of the unrounded sum.
   */
  lemma TotalIsSumOfLines(t: SessionTokens, provider: string, a: Option<AnalysisTokens>, rates: RateTable)
    requires PriceVoiceSession(t, provider, rates).cost.Some?
    ensures var s := PriceSession(t, provider, a, rates);
      && RatesFor(rates, provider).Some?
      && s.total == Some(PriceVoiceSession(t, provider, rates).cost.value
           + OrZero(PriceTranscription(t, provider, rates)) + OrZero(PriceAnalysis(a, rates)))
      && -0.0000015 <= s.total.value - RawTotal(t, provider, a, rates, RatesFor(rates, provider).value) <= 0.0000015
  {
    var voice := RawVoiceCost(t, RatesFor(rates, provider).value);
    var transcribed := provider != GEMINI_LIVE && PriceTranscription(t, provider, rates).Some?;
    LineNear(voice, true);
    LineNear(RawTranscription(t, rates), transcribed);
    var analysis := if PriceAnalysis(a, rates).Some? then RawAnalysis(a.value, rates) else 0.0;
    LineNear(analysis, PriceAnalysis(a, rates).Some?);
    LinesAdd(RoundMoney(voice), OrZero(PriceTranscription(t, provider, rates)), OrZero(PriceAnalysis(a, rates)));
  }

  /** A total is missing exactly when a reason is given, and never stands at zero instead. */
  lemma UnknownIsNull(t: SessionTokens, provider: string, a: Option<AnalysisTokens>, rates: RateTable)
    ensures PriceSession(t, provider, a, rates).total.None? <==> WhyUnpriced(t, provider, rates).Some?
    ensures PriceVoiceSession(t, provider, rates).cost.None? <==> PriceVoiceSession(t, provider, rates).reason.Some?
  {
  }
}
