/** The scrap catalog: the entries of the price list, indexed by their
    lower-cased name, and the contract of the fuzzy matcher that picks an
    entry for a free-text material. */
module ScrapCatalog {
  import opened Wrappers
  import opened Text

  /** A catalog price. `Fixed` is a number (or a numeric string) that
      `float()` accepts; `Range` is a "low - high" string that `float()`
      rejects with a ValueError. */
  datatype Price = Fixed(amount: real) | Range(low: real, high: real)

  /** `float(price)`: the number, or None where Python raises ValueError. */
  function AsFloat(p: Price): (r: Option<real>)
    ensures r.Some? <==> p.Fixed?
  {
    match p
    case Fixed(amount) => Some(amount)
    case Range(_, _) => None
  }

  /** One record of the price list; its image reference is not read by the dialogue. */
  datatype Entry = Entry(name: string, price: Price, unit: string)

  type Catalog = map<string, Entry>

  /** Every key is the lower-cased name of the entry it holds. */
  predicate KeyedByLowerName(c: Catalog) {
    forall k :: k in c ==> Lower(c[k].name) == k
  }

  /** The dictionary comprehension `{item["Name"].lower(): item for item in items}`:
      entries are inserted in order, so a later entry replaces an earlier one
      whose name lower-cases to the same key. */
  function BuildCatalog(items: seq<Entry>): (c: Catalog)
    ensures KeyedByLowerName(c)
    ensures forall i :: 0 <= i < |items| ==> Lower(items[i].name) in c
    ensures forall k :: k in c ==> c[k] in items
  {
    if items == [] then map[]
    else
      var last := items[|items| - 1];
      var c := BuildCatalog(items[..|items| - 1]);
      assert forall i :: 0 <= i < |items| - 1 ==> items[i] == items[..|items| - 1][i];
      c[Lower(last.name) := last]
  }

  /** An entry is what its key gives back unless a later entry shares its lower-cased name. */
  lemma {:induction false} LastEntryWins(items: seq<Entry>, i: nat)
    requires i < |items|
    requires forall j :: i < j < |items| ==> Lower(items[j].name) != Lower(items[i].name)
    ensures BuildCatalog(items)[Lower(items[i].name)] == items[i]
  {
    if i < |items| - 1 {
      var prefix := items[..|items| - 1];
      assert prefix[i] == items[i];
      assert forall j :: i < j < |prefix| ==> prefix[j] == items[j];
      LastEntryWins(prefix, i);
    }
  }

  /** Two names differing only in letter case share one key: the later entry is kept. */
  lemma CaseVariantsCollapse(first: Entry, second: Entry)
    requires Lower(first.name) == Lower(second.name)
    ensures BuildCatalog([first, second]) == map[Lower(second.name) := second]
  {
    assert [first, second][..1] == [first];
    assert [first][..0] == [];
  }

  /** The outcome of `process.extractOne(query, keys)`: the best key and its score. */
  datatype Match = Match(key: string, score: int)

  predicate IsAlphanumeric(c: char) {
    IsDigit(c) || ('a' <= c <= 'z') || ('A' <= c <= 'Z')
  }

  /** What the fuzzy matcher guarantees: no result for an empty catalog;
      otherwise a key of the catalog with a score in 0..100, and score 100 when
      the query is itself a key with something left after its punctuation is
      dropped. */
  predicate MatchContract(m: Option<Match>, query: string, c: Catalog) {
    (m.None? <==> c == map[]) &&
    (m.Some? ==>
      m.value.key in c && 0 <= m.value.score <= 100 &&
      (query in c && (exists i :: 0 <= i < |query| && IsAlphanumeric(query[i])) ==> m.value.score == 100))
  }

  /** For a non-empty catalog, some outcome of the matcher meets the contract. */
  lemma MatchContractSatisfiable(query: string, c: Catalog)
    requires c != map[]
    ensures exists m :: MatchContract(Some(m), query, c)
  {
    var k :| k in c;
    assert MatchContract(Some(Match(k, 100)), query, c);
  }
}
