/** The AI settings page (pages/admin/AIConfig.tsx): an edited copy of the configuration,
    reordering of the provider priority, per-provider switches and fields, saving, and the
    connection test with its per-provider status. */
module AIConfigPage {
  import opened Types
  import Storage
  import AIService

  datatype Direction = Up | Down

  /** The provider fields the form edits, one at a time. */
  datatype Field = ApiKey | ModelName | BaseURL

  datatype CheckStatus = Success | Failure

  /** A record with one entry per provider. */
  datatype PerProvider<T> = PerProvider(gemini: T, bailian: T) {
    function Get(q: AIProvider): T {
      match q
      case Gemini => gemini
      case Bailian => bailian
    }

    /** The record with the entry of `q` replaced by `v`. */
    function With(q: AIProvider, v: T): (r: PerProvider<T>)
      ensures r.Get(q) == v
      ensures forall o :: o != q ==> r.Get(o) == Get(o)
    {
      match q
      case Gemini => this.(gemini := v)
      case Bailian => this.(bailian := v)
    }
  }

  /** The new priority list of `movePriority`: a swap with the neighbour in the given
      direction when there is one, else the same list. */
  function MovedPriority(p: seq<AIProvider>, index: nat, direction: Direction): seq<AIProvider>
    requires index < |p|
  {
    if direction == Up && index > 0 then p[index := p[index - 1]][index - 1 := p[index]]
    else if direction == Down && index < |p| - 1 then p[index := p[index + 1]][index + 1 := p[index]]
    else p
  }

  /** Moving up swaps the entry with the one before it, moving down with the one after it;
      every other position keeps its provider. */
  lemma MoveSwaps(p: seq<AIProvider>, index: nat, direction: Direction)
    requires index < |p|
    ensures var r := MovedPriority(p, index, direction);
      && |r| == |p|
      && (direction == Up && index > 0 ==>
            r[index] == p[index - 1] && r[index - 1] == p[index]
            && forall k :: 0 <= k < |p| && k != index && k != index - 1 ==> r[k] == p[k])
      && (direction == Down && index < |p| - 1 ==>
            r[index] == p[index + 1] && r[index + 1] == p[index]
            && forall k :: 0 <= k < |p| && k != index && k != index + 1 ==> r[k] == p[k])
  {
  }

  /** Up at the first row and down at the last row change nothing. */
  lemma MoveAtBoundary(p: seq<AIProvider>, index: nat, direction: Direction)
    requires index < |p|
    requires (direction == Up && index == 0) || (direction == Down && index == |p| - 1)
    ensures MovedPriority(p, index, direction) == p
  {
  }

  /** Reordering never adds, drops or duplicates a provider. */
  lemma MovePermutes(p: seq<AIProvider>, index: nat, direction: Direction)
    requires index < |p|
    ensures multiset(MovedPriority(p, index, direction)) == multiset(p)
  {
    if direction == Up && index > 0 {
      SwapPermutes(p, index - 1);
    } else if direction == Down && index < |p| - 1 {
      SwapPermutes(p, index);
    }
  }

  lemma SwapPermutes(p: seq<AIProvider>, i: nat)
    requires i + 1 < |p|
    ensures multiset(p[i := p[i + 1]][i + 1 := p[i]]) == multiset(p)
    ensures multiset(p[i + 1 := p[i]][i := p[i + 1]]) == multiset(p)
  {
    var q := p[i := p[i + 1]][i + 1 := p[i]];
    assert p == p[..i] + [p[i], p[i + 1]] + p[i + 2..];
    assert q == p[..i] + [p[i + 1], p[i]] + p[i + 2..];
    assert p[i + 1 := p[i]][i := p[i + 1]] == q;
  }

  /** Moving a provider up and then back down restores the list. */
  lemma MoveUpThenDown(p: seq<AIProvider>, index: nat)
    requires 0 < index < |p|
    ensures MovedPriority(MovedPriority(p, index, Up), index - 1, Down) == p
  {
  }

  /** `toggleProviderEnabled` */
  function ToggleProvider(c: AIConfig, q: AIProvider): (r: AIConfig)
    ensures r.ProviderEnabled(q) == !c.ProviderEnabled(q)
    ensures r.enabled == c.enabled && r.priority == c.priority
    ensures q == Gemini ==> r.bailian == c.bailian && r.gemini == c.gemini.(enabled := r.gemini.enabled)
    ensures q == Bailian ==> r.gemini == c.gemini && r.bailian == c.bailian.(enabled := r.bailian.enabled)
  {
    match q
    case Gemini => c.(gemini := c.gemini.(enabled := !c.gemini.enabled))
    case Bailian => c.(bailian := c.bailian.(enabled := !c.bailian.enabled))
  }

  /** Flipping the same switch twice restores the configuration. */
  lemma ToggleTwice(c: AIConfig, q: AIProvider)
    ensures ToggleProvider(ToggleProvider(c, q), q) == c
  {
  }

  /** Gemini has no base URL field on the form. */
  predicate Editable(q: AIProvider, field: Field) {
    !(q == Gemini && field == BaseURL)
  }

  /** `updateProviderConfig` */
  function UpdateProvider(c: AIConfig, q: AIProvider, field: Field, value: string): (r: AIConfig)
    requires Editable(q, field)
    ensures r.enabled == c.enabled && r.priority == c.priority
    ensures q == Gemini ==> r.bailian == c.bailian && r.gemini.enabled == c.gemini.enabled
    ensures q == Bailian ==> r.gemini == c.gemini && r.bailian.enabled == c.bailian.enabled
    ensures field == ApiKey && q == Gemini ==> r.gemini == c.gemini.(apiKey := value)
    ensures field == ModelName && q == Gemini ==> r.gemini == c.gemini.(model := value)
    ensures field == ApiKey && q == Bailian ==> r.bailian == c.bailian.(apiKey := value)
    ensures field == ModelName && q == Bailian ==> r.bailian == c.bailian.(model := value)
    ensures field == BaseURL ==> r.bailian == c.bailian.(baseURL := value)
  {
    match q
    case Gemini =>
      if field == ApiKey then c.(gemini := c.gemini.(apiKey := value))
      else c.(gemini := c.gemini.(model := value))
    case Bailian =>
      if field == ApiKey then c.(bailian := c.bailian.(apiKey := value))
      else if field == ModelName then c.(bailian := c.bailian.(model := value))
      else c.(bailian := c.bailian.(baseURL := value))
  }

  /** The page: the configuration being edited and the result of the last check of each
      provider. */
  class AIConfigForm {
    const store: Storage.ContentStore
    var config: AIConfig
    var checking: PerProvider<bool>
    var status: PerProvider<Option<CheckStatus>>
    var saved: bool

    /** The form starts from its own defaults and then loads the stored configuration. */
    constructor (store: Storage.ContentStore)
      ensures this.store == store
      ensures config == store.GetAIConfig()
      ensures checking == PerProvider(false, false) && status == PerProvider(None, None) && !saved
    {
      this.store := store;
      config := store.GetAIConfig();
      checking := PerProvider(false, false);
      status := PerProvider(None, None);
      saved := false;
    }

    method MovePriority(index: nat, direction: Direction)
      requires index < |config.priority|
      modifies this`config
      ensures config == old(config).(priority := MovedPriority(old(config.priority), index, direction))
    {
      var n := |config.priority|;
      var a := new AIProvider[n];
      forall i | 0 <= i < n {
        a[i] := config.priority[i];
      }
      if direction == Up && index > 0 {
        a[index], a[index - 1] := a[index - 1], a[index];
      } else if direction == Down && index < n - 1 {
        a[index], a[index + 1] := a[index + 1], a[index];
      }
      config := config.(priority := a[..]);
    }

    method ToggleProviderEnabled(q: AIProvider)
      modifies this`config
      ensures config == ToggleProvider(old(config), q)
    {
      config := ToggleProvider(config, q);
    }

    method UpdateProviderConfig(q: AIProvider, field: Field, value: string)
      requires Editable(q, field)
      modifies this`config
      ensures config == UpdateProvider(old(config), q, field, value)
    {
      config := UpdateProvider(config, q, field, value);
    }

    /** `handleSave`; the two-second reset of the "saved" flag is a timer and not modelled. */
    method HandleSave()
      modifies this`saved, store`aiConfig
      ensures store.GetAIConfig() == config && saved
    {
      store.SaveAIConfig(config);
      saved := true;
    }

    /** `handleCheckConnection`: the edited configuration is saved first, so the check uses
        it; the status of the provider is 'success' exactly when the check succeeded. */
    method HandleCheckConnection(q: AIProvider, t: AIService.Transport)
      modifies this`checking, this`status, store`aiConfig
      ensures store.GetAIConfig() == config
      ensures status == old(status).With(q, Some(if AIService.CheckConnection(q, config, t) then Success else Failure))
      ensures checking == old(checking).With(q, false)
    {
      checking := checking.With(q, true);
      status := status.With(q, None);
      store.SaveAIConfig(config);
      var current := store.GetAIConfig();
      assert current == config;
      var isOk := AIService.CheckConnection(q, current, t);
      checking := checking.With(q, false);
      status := status.With(q, Some(if isOk then Success else Failure));
    }
  }
}
