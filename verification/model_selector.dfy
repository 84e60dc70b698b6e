/**
 * The model picker of `src/components/ModelSelector.tsx`: a fixed table of
 * twelve models, one `<option>` per entry, a price label that reads `Free`
 * when both prices are zero, and an info panel for the selected entry.
 */
module ModelSelector {
  import opened Js
  import Registry

  datatype SelectorModel = SelectorModel(
    id: string,
    name: string,
    provider: string,
    contextLength: nat,
    inputPrice: real,
    outputPrice: real,
    description: Option<string>)

  /** `models`, in table order. */
  const Models: seq<SelectorModel> := [
    SelectorModel("gemini-pro", "Gemini 2.0 Flash Thinking", "Google", 1048576, 0.0, 0.0, Some("Fast and free model with strong reasoning capabilities")),
    SelectorModel("deepseek-r1", "DeepSeek R1 (free)", "DeepSeek", 128000, 0.0, 0.0, Some("Open-source model with strong reasoning capabilities")),
    SelectorModel("liquid-lfm-7b", "Liquid LFM 7B", "Liquid", 32768, 0.01, 0.01, Some("Best-in-class multilingual model")),
    SelectorModel("liquid-lfm-3b", "Liquid LFM 3B", "Liquid", 32768, 0.02, 0.02, Some("Efficient multilingual model")),
    SelectorModel("nova-micro", "Amazon Nova Micro 1.0", "Amazon", 128000, 0.035, 0.14, Some("Fast, low-cost text processing")),
    SelectorModel("nova-lite", "Amazon Nova Lite 1.0", "Amazon", 300000, 0.06, 0.24, Some("Balanced performance and cost")),
    SelectorModel("llama-3-instruct", "Meta Llama 3.3 70B Instruct", "Meta", 131072, 0.12, 0.3, Some("Strong multilingual capabilities")),
    SelectorModel("command-r7b", "Cohere Command R7B (12-2024)", "Cohere", 128000, 0.0375, 0.15, Some("Efficient command-following model")),
    SelectorModel("sonar", "Perplexity Sonar", "Perplexity", 127072, 1.0, 1.0, Some("Fast and affordable with citations")),
    SelectorModel("sonar-reasoning", "Perplexity Sonar Reasoning", "Perplexity", 127000, 1.0, 5.0, Some("Enhanced reasoning capabilities")),
    SelectorModel("claude-3-sonnet", "Claude 3.5 Sonnet", "Anthropic", 200000, 3.0, 15.0, Some("Exceptional at coding and analysis")),
    SelectorModel("claude-3-haiku", "Claude 3.5 Haiku", "Anthropic", 200000, 0.8, 4.0, Some("Fast and efficient version of Claude"))
  ]

  function TotalCost(m: SelectorModel): real
  {
    m.inputPrice + m.outputPrice
  }

  /** The order the comment above the table claims. */
  predicate SortedByTotalCost(ms: seq<SelectorModel>)
  {
    forall i, j :: 0 <= i < j < |ms| ==> TotalCost(ms[i]) <= TotalCost(ms[j])
  }

  /** The claim does not hold: `command-r7b` (0.1875 in total) comes after
      `llama-3-instruct` (0.42), and `claude-3-haiku` (4.8) after
      `claude-3-sonnet` (18). */
  lemma TableNotSortedByTotalCost()
    ensures Models[6].id == "llama-3-instruct" && Models[7].id == "command-r7b"
    ensures TotalCost(Models[6]) > TotalCost(Models[7])
    ensures Models[10].id == "claude-3-sonnet" && Models[11].id == "claude-3-haiku"
    ensures TotalCost(Models[10]) > TotalCost(Models[11])
    ensures !SortedByTotalCost(Models)
  {
  }

  predicate IdsUnique(ms: seq<SelectorModel>)
  {
    forall i, j :: 0 <= i < j < |ms| ==> ms[i].id != ms[j].id
  }

  lemma TableIdsUnique()
    ensures IdsUnique(Models)
  {
  }

  /** Every id offered names an entry of the registry, so a selection made
      here is never rejected as an unknown model. */
  lemma EveryIdRegistered()
    ensures forall i :: 0 <= i < |Models| ==> Models[i].id in Registry.ModelConfigs
  {
  }

  /** `deepseek-r1` is labelled free here although the registry prices it
      at 6.5 in and 8 out. */
  lemma DeepSeekR1PricesDisagree()
    ensures Models[1].id == "deepseek-r1" && PriceLabel(Models[1]) == Free
    ensures Registry.ModelConfigs["deepseek-r1"].inputPrice == 6.5
    ensures Registry.ModelConfigs["deepseek-r1"].outputPrice == 8.0
  {
  }

  /** `models.find(m => m.id === selectedModel)`: the first entry with that id. */
  function Find(ms: seq<SelectorModel>, id: string): (r: Option<SelectorModel>)
    ensures r.None? <==> forall i :: 0 <= i < |ms| ==> ms[i].id != id
    ensures r.Some? ==> exists i :: 0 <= i < |ms| && ms[i] == r.value && FirstWithId(ms, id, i)
  {
    if ms == [] then None
    else if ms[0].id == id then
      assert FirstWithId(ms, id, 0);
      Some(ms[0])
    else
      var rest := Find(ms[1..], id);
      if rest.Some? then
        var i :| 0 <= i < |ms[1..]| && ms[1..][i] == rest.value && FirstWithId(ms[1..], id, i);
        assert FirstWithId(ms, id, i + 1);
        rest
      else
        None
  }

  predicate FirstWithId(ms: seq<SelectorModel>, id: string, i: int)
  {
    0 <= i < |ms| && ms[i].id == id && forall j :: 0 <= j < i ==> ms[j].id != id
  }

  /** With unique ids, `Find` returns exactly the entry carrying the id. */
  lemma {:induction false} FindUnique(ms: seq<SelectorModel>, i: int)
    requires IdsUnique(ms) && 0 <= i < |ms|
    ensures Find(ms, ms[i].id) == Some(ms[i])
  {
    var r := Find(ms, ms[i].id);
    var k :| 0 <= k < |ms| && ms[k] == r.value && FirstWithId(ms, ms[i].id, k);
    assert k == i;
  }

  datatype Price = Free | Priced(input: real, output: real)

  /** The price part of an option's text and of the info panel. */
  function PriceLabel(m: SelectorModel): (r: Price)
    ensures r == Free <==> m.inputPrice == 0.0 && m.outputPrice == 0.0
    ensures r.Priced? ==> r.input == m.inputPrice && r.output == m.outputPrice
  {
    if m.inputPrice == 0.0 && m.outputPrice == 0.0 then Free else Priced(m.inputPrice, m.outputPrice)
  }

  /** One `<option key={id} value={id}>name (provider) - price</option>`. */
  datatype SelectOption = SelectOption(value: string, name: string, provider: string, price: Price)

  /** `models.map(...)`: one option per entry, in table order. */
  function Options(ms: seq<SelectorModel>): (r: seq<SelectOption>)
    ensures |r| == |ms|
    ensures forall i :: 0 <= i < |ms| ==>
      && r[i].value == ms[i].id && r[i].name == ms[i].name && r[i].provider == ms[i].provider
      && r[i].price == PriceLabel(ms[i])
  {
    if ms == [] then []
    else [SelectOption(ms[0].id, ms[0].name, ms[0].provider, PriceLabel(ms[0]))] + Options(ms[1..])
  }

  /** The info panel below the picker. */
  datatype Info = Info(description: Option<string>, contextLength: nat, price: Price)

  /** Rendered only when the selection is in the table, from its first match. */
  function InfoPanel(ms: seq<SelectorModel>, selected: string): (r: Option<Info>)
    ensures r.None? <==> forall i :: 0 <= i < |ms| ==> ms[i].id != selected
    ensures r.Some? ==> exists i :: (FirstWithId(ms, selected, i)
      && r.value == Info(ms[i].description, ms[i].contextLength, PriceLabel(ms[i])))
  {
    match Find(ms, selected)
    case None => None
    case Some(m) => Some(Info(m.description, m.contextLength, PriceLabel(m)))
  }

  /** The options list the picker's values as the ids, so the values a user
      can pick are exactly the table's ids. */
  lemma {:induction false} OptionValuesAreIds(ms: seq<SelectorModel>, id: string)
    ensures (exists o :: o in Options(ms) && o.value == id) <==> Find(ms, id).Some?
  {
    var os := Options(ms);
    if exists o :: o in os && o.value == id {
      var o :| o in os && o.value == id;
      var i :| 0 <= i < |os| && os[i] == o;
      assert ms[i].id == id;
    }
    if Find(ms, id).Some? {
      var i :| 0 <= i < |ms| && ms[i].id == id;
      assert os[i] in os;
    }
  }
}
