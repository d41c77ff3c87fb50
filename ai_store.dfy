/// The AI assistant's store (client/src/stores/ai.ts): the connection
/// settings, patched key by key, and the progress of one batch of requests,
/// counted up as answers arrive.
module AIStore {
  import opened Wrappers

  /// `AIConfig`.
  datatype Config = Config(baseUrl: string, apiKey: string, modelName: string, maxConcurrent: int, enabled: bool)

  /// The settings before the user changes any.
  const DefaultConfig := Config("https://api.openai.com/v1", "", "qwen-plus", 3, false)

  /// `Partial<AIConfig>`: the keys present in a settings update.
  datatype ConfigPatch = ConfigPatch(baseUrl: Option<string>, apiKey: Option<string>, modelName: Option<string>,
                                     maxConcurrent: Option<int>, enabled: Option<bool>)

  const NoChange := ConfigPatch(None, None, None, None, None)

  /// `{ ...config, ...patch }`: each key present in the patch is taken from
  /// the patch, each other key from the settings.
  function Merged(config: Config, patch: ConfigPatch): (r: Config)
    ensures r.baseUrl == (if patch.baseUrl.Some? then patch.baseUrl.value else config.baseUrl)
    ensures r.apiKey == (if patch.apiKey.Some? then patch.apiKey.value else config.apiKey)
    ensures r.modelName == (if patch.modelName.Some? then patch.modelName.value else config.modelName)
    ensures r.maxConcurrent == (if patch.maxConcurrent.Some? then patch.maxConcurrent.value else config.maxConcurrent)
    ensures r.enabled == (if patch.enabled.Some? then patch.enabled.value else config.enabled)
  {
    Config(
      if patch.baseUrl.Some? then patch.baseUrl.value else config.baseUrl,
      if patch.apiKey.Some? then patch.apiKey.value else config.apiKey,
      if patch.modelName.Some? then patch.modelName.value else config.modelName,
      if patch.maxConcurrent.Some? then patch.maxConcurrent.value else config.maxConcurrent,
      if patch.enabled.Some? then patch.enabled.value else config.enabled)
  }

  function Later<T>(first: Option<T>, second: Option<T>): Option<T>
  {
    if second.Some? then second else first
  }

  /// Two updates in a row, as one update: the later one wins key by key.
  function Then(p: ConfigPatch, q: ConfigPatch): ConfigPatch
  {
    ConfigPatch(Later(p.baseUrl, q.baseUrl), Later(p.apiKey, q.apiKey), Later(p.modelName, q.modelName),
                Later(p.maxConcurrent, q.maxConcurrent), Later(p.enabled, q.enabled))
  }

  /// An empty update changes nothing, repeating an update changes nothing
  /// more, and two updates in a row are the combined update.
  lemma MergedLaws(config: Config, p: ConfigPatch, q: ConfigPatch)
    ensures Merged(config, NoChange) == config
    ensures Merged(Merged(config, p), p) == Merged(config, p)
    ensures Merged(Merged(config, p), q) == Merged(config, Then(p, q))
  {
  }

  /// A full update replaces every key.
  lemma FullPatchReplaces(config: Config, other: Config)
    ensures Merged(config, ConfigPatch(Some(other.baseUrl), Some(other.apiKey), Some(other.modelName),
                                       Some(other.maxConcurrent), Some(other.enabled))) == other
  {
  }

  /// The two sides of one suggested example.
  datatype Sides = Sides(front: string, back: string)

  /// `AIProcessingResult`: one answer of the assistant.
  datatype Answer = Answer(level: string, front: string, back: string, additions: seq<Sides>)

  /// `AIProcessingState`.
  datatype Progress = Progress(isProcessing: bool, processedCount: int, totalCount: int,
                               results: seq<Answer>, error: Option<string>)

  /// The idle state `resetProcessingState` returns to.
  const Idle := Progress(false, 0, 0, [], None)

  /// Since the last start every processed request gave at most one answer.
  predicate Consistent(s: Progress)
  {
    |s.results| <= s.processedCount
  }

  /// `startProcessing(n)`.
  function Start(n: int): (r: Progress)
    ensures r.isProcessing && r.processedCount == 0 && r.totalCount == n && r.results == [] && r.error.None?
    ensures Consistent(r)
  {
    Progress(true, 0, n, [], None)
  }

  /// `updateProgress(result?)`: one more request processed, its answer
  /// kept if it has one.
  function Advance(s: Progress, answer: Option<Answer>): (r: Progress)
    ensures r.processedCount == s.processedCount + 1
    ensures |r.results| == |s.results| + (if answer.Some? then 1 else 0) && s.results <= r.results
    ensures Consistent(s) ==> Consistent(r)
    ensures r.isProcessing == s.isProcessing && r.totalCount == s.totalCount && r.error == s.error
  {
    s.(processedCount := s.processedCount + 1,
       results := if answer.Some? then s.results + [answer.value] else s.results)
  }

  /// The answers among a list of outcomes, in order.
  function Answers(outcomes: seq<Option<Answer>>): (r: seq<Answer>)
    ensures |r| <= |outcomes|
    ensures forall a :: a in r ==> Some(a) in outcomes
  {
    if outcomes == [] then []
    else Answers(outcomes[..|outcomes| - 1]) + (if outcomes[|outcomes| - 1].Some? then [outcomes[|outcomes| - 1].value] else [])
  }

  /// Progress after a list of outcomes.
  function AdvanceAll(s: Progress, outcomes: seq<Option<Answer>>): Progress
  {
    if outcomes == [] then s else Advance(AdvanceAll(s, outcomes[..|outcomes| - 1]), outcomes[|outcomes| - 1])
  }

  /// After starting a batch of `n` and receiving a list of outcomes, the
  /// count is the number of outcomes, the results are exactly their
  /// answers in arrival order, and the batch is still running.
  lemma {:induction false} BatchProgress(n: int, outcomes: seq<Option<Answer>>)
    ensures var s := AdvanceAll(Start(n), outcomes);
            s.processedCount == |outcomes| && s.results == Answers(outcomes)
            && s.isProcessing && s.totalCount == n && s.error.None?
  {
    if outcomes != [] {
      BatchProgress(n, outcomes[..|outcomes| - 1]);
    }
  }

  /// `completeProcessing`: the batch stops, nothing else changes.
  function Complete(s: Progress): (r: Progress)
    ensures !r.isProcessing
    ensures r.(isProcessing := s.isProcessing) == s
  {
    s.(isProcessing := false)
  }

  /// `setError(message)`: the message is kept and the batch stops; counts
  /// and results stay.
  function Fail(s: Progress, message: string): (r: Progress)
    ensures !r.isProcessing && r.error == Some(message)
    ensures r.(isProcessing := s.isProcessing, error := s.error) == s
  {
    s.(error := Some(message), isProcessing := false)
  }

  /// Every transition keeps a consistent state consistent, and from any
  /// state reset and start lead to consistent states.
  lemma ConsistentKept(s: Progress, answer: Option<Answer>, message: string, n: int)
    requires Consistent(s)
    ensures Consistent(Advance(s, answer)) && Consistent(Complete(s)) && Consistent(Fail(s, message))
    ensures Consistent(Idle) && Consistent(Start(n))
  {
  }

  /// The store: its settings and the progress of the current batch.
  class Store {
    var config: Config
    var isProcessing: bool
    var processedCount: int
    var totalCount: int
    var results: seq<Answer>
    var error: Option<string>

    /// The progress fields as a value.
    function Snapshot(): Progress
      reads this
    {
      Progress(isProcessing, processedCount, totalCount, results, error)
    }

    /// The store as created: each of the two saved values, when local
    /// storage holds one, or else its default (default settings, idle).
    constructor (savedConfig: Option<Config>, savedProgress: Option<Progress>)
      ensures config == (if savedConfig.Some? then savedConfig.value else DefaultConfig)
      ensures Snapshot() == (if savedProgress.Some? then savedProgress.value else Idle)
    {
      config := if savedConfig.Some? then savedConfig.value else DefaultConfig;
      var p := if savedProgress.Some? then savedProgress.value else Idle;
      isProcessing, processedCount, totalCount, results, error := p.isProcessing, p.processedCount, p.totalCount, p.results, p.error;
    }

    /// `updateConfig`.
    method UpdateConfig(patch: ConfigPatch)
      modifies this
      ensures config == Merged(old(config), patch) && Snapshot() == old(Snapshot())
    {
      config := Merged(config, patch);
    }

    /// `resetProcessingState`.
    method ResetProcessingState()
      modifies this
      ensures Snapshot() == Idle && config == old(config)
    {
      isProcessing, processedCount, totalCount, results, error := false, 0, 0, [], None;
    }

    /// `startProcessing`.
    method StartProcessing(totalNotes: int)
      modifies this
      ensures Snapshot() == Start(totalNotes) && config == old(config)
    {
      isProcessing, processedCount, totalCount, results, error := true, 0, totalNotes, [], None;
    }

    /// `updateProgress`.
    method UpdateProgress(answer: Option<Answer>)
      modifies this
      ensures Snapshot() == Advance(old(Snapshot()), answer) && config == old(config)
    {
      if answer.Some? {
        results := results + [answer.value];
      }
      processedCount := processedCount + 1;
    }

    /// `completeProcessing`.
    method CompleteProcessing()
      modifies this
      ensures Snapshot() == Complete(old(Snapshot())) && config == old(config)
    {
      isProcessing := false;
    }

    /// `setError`.
    method SetError(message: string)
      modifies this
      ensures Snapshot() == Fail(old(Snapshot()), message) && config == old(config)
    {
      error := Some(message);
      isProcessing := false;
    }
  }
}
