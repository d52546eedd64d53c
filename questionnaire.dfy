/**
 * The advisor's questionnaire state (`AdvisorState`) and the pure text
 * conversions of two of its free-text fields: the products list and the
 * patrimony distribution.
 */
module Questionnaire {
  import opened Wrappers
  import opened KotlinText
  import opened OrderedMap

  /** Every answer of the questionnaire; a null answer is None. */
  datatype AdvisorState = AdvisorState(
    // Section 1
    objectives: Option<string>,
    horizon: Option<string>,
    objectivePriority: Option<string>,
    objectiveAdmitDrop: Option<string>,
    // Section 2
    incomeRange: Option<string>,
    savingsPercent: Option<string>,
    emergencyMonths: Option<string>,
    debtDescription: Option<string>,
    withdrawNext36: Option<string>,
    initialInvestment: Option<string>,
    periodicContribution: Option<string>,
    // Section 3
    productsUsed: seq<string>,
    experienceLevel: Option<string>,
    investedIntl: Option<string>,
    preferManaged: Option<string>,
    // Section 4
    reactionToDrop: Option<string>,
    maxAnnualDrop: Option<string>,
    monthlyVolatilityDiscomfort: Option<string>,
    preferenceExpectedReturn: Option<string>,
    crisisReaction: Option<string>,
    percentEquityInCrisis: Option<string>,
    illiquidityAcceptance: Option<string>,
    // Section 5
    liquidityMinPercent: int,
    esgPreference: Option<string>,
    allowedCurrencies: Option<string>,
    currencyRisk: Option<string>,
    incomePreference: Option<string>,
    taxPreferences: Option<string>,
    legalRestrictions: Option<string>,
    sectorPreferences: Option<string>,
    interestInRealEstate: Option<string>,
    interestAlternatives: Option<string>,
    minTicketSize: Option<string>,
    // Section 6
    patrimonyDistribution: Entries,
    intermediaries: Option<string>,
    totalCostsPercent: Option<string>,
    // Section 7
    managementPreference: Option<string>,
    involvementFrequency: Option<string>,
    reportFormat: Option<string>,
    benchmark: Option<string>,
    milestoneDate: Option<string>,
    otherNotes: Option<string>
  )

  /** Liquidity minimum before the slider is touched. */
  const DEFAULT_LIQUIDITY_MIN_PERCENT: int := 30

  /** `AdvisorState()`: every answer null, both collections empty, liquidity 30%. */
  function DefaultState(): (s: AdvisorState)
    ensures s.liquidityMinPercent == 30
    ensures s.productsUsed == [] && s.patrimonyDistribution == []
    ensures s.horizon.None? && s.incomeRange.None? && s.savingsPercent.None? && s.emergencyMonths.None?
    ensures s.experienceLevel.None? && s.maxAnnualDrop.None? && s.reactionToDrop.None?
    ensures s.preferenceExpectedReturn.None? && s.currencyRisk.None?
  {
    AdvisorState(
      None, None, None, None,
      None, None, None, None, None, None, None,
      [], None, None, None,
      None, None, None, None, None, None, None,
      DEFAULT_LIQUIDITY_MIN_PERCENT, None, None, None, None, None, None, None, None, None, None,
      [], None, None,
      None, None, None, None, None, None)
  }

  // ---------- products used: "CDT, FIC, TES" ----------

  /** `map { it.trim() }` */
  function TrimEach(pieces: seq<string>): (r: seq<string>)
    ensures |r| == |pieces|
    ensures forall i :: 0 <= i < |r| ==> r[i] == Trim(pieces[i])
  {
    if pieces == [] then [] else [Trim(pieces[0])] + TrimEach(pieces[1..])
  }

  /** `filter { it.isNotEmpty() }` */
  function DropEmpty(items: seq<string>): (r: seq<string>)
    ensures forall i :: 0 <= i < |r| ==> r[i] != "" && r[i] in items
    ensures (forall i :: 0 <= i < |items| ==> items[i] != "") ==> r == items
    ensures forall x :: multiset(r)[x] == if x == "" then 0 else multiset(items)[x]
  {
    if items == [] then []
    else
      assert items == [items[0]] + items[1..];
      if items[0] == "" then DropEmpty(items[1..])
      else [items[0]] + DropEmpty(items[1..])
  }

  /** Dropping keeps the order: the items kept from `a + b` are those of `a`, then those of `b`. */
  lemma {:induction false} DropEmptyAppend(a: seq<string>, b: seq<string>)
    ensures DropEmpty(a + b) == DropEmpty(a) + DropEmpty(b)
  {
    if a == [] {
      assert a + b == b;
    } else {
      assert (a + b)[0] == a[0] && (a + b)[1..] == a[1..] + b;
      DropEmptyAppend(a[1..], b);
    }
  }

  /** The products text field's edit: split at ',', trim, drop the empty items. */
  function ParseProducts(text: string): (items: seq<string>)
    ensures forall i :: 0 <= i < |items| ==> IsProductName(items[i])
  {
    DropEmpty(TrimEach(Split(text, ',')))
  }

  /** What the products field can hold: trimmed, not empty, no ','. */
  predicate IsProductName(item: string) {
    item != "" && IsTrimmed(item) && ',' !in item
  }

  /** The products text field's value: `joinToString(", ")`. */
  function ProductsText(items: seq<string>): (text: string)
    ensures items == [] ==> text == ""
    ensures items != [] ==> items[0] <= text
  {
    JoinEnds(items, ", ");
    Join(items, ", ")
  }

  /** Blank text yields no product at all. */
  lemma BlankProducts(text: string)
    requires IsBlank(text)
    ensures ParseProducts(text) == []
  {
    var pieces := Split(text, ',');
    SplitBlank(text, ',');
    var trimmed := TrimEach(pieces);
    forall i | 0 <= i < |trimmed| ensures trimmed[i] == "" {
      assert IsBlank(pieces[i]);
    }
    EmptyItemsDropped(trimmed);
  }

  lemma {:induction false} EmptyItemsDropped(items: seq<string>)
    requires forall i :: 0 <= i < |items| ==> items[i] == ""
    ensures DropEmpty(items) == []
  {
    if items != [] {
      EmptyItemsDropped(items[1..]);
    }
  }

  /** Trimming undoes the space that `", "` leaves in front of every later item. */
  lemma TrimSpaced(items: seq<string>)
    requires forall i :: 0 <= i < |items| ==> IsTrimmed(items[i])
    ensures TrimEach(PrefixEach(" ", items)) == items
  {
    var spaced := PrefixEach(" ", items);
    var trimmed := TrimEach(spaced);
    forall i | 0 <= i < |items| ensures trimmed[i] == items[i] {
      SpacedItemTrims(items[i]);
    }
  }

  /** One item after the separator's space trims back to itself. */
  lemma SpacedItemTrims(item: string)
    requires IsTrimmed(item)
    ensures Trim(" " + item) == item
  {
    assert IsBlank(" ") by {
      assert " "[0] == ' ';
    }
    TrimBlankPrefix(" ", item);
    TrimTrimmed(item);
  }

  /** Parsing the field's own text gives back the list it shows. */
  lemma ProductsRoundTrip(items: seq<string>)
    requires forall i :: 0 <= i < |items| ==> IsProductName(items[i])
    ensures ParseProducts(ProductsText(items)) == items
  {
    if items != [] {
      ProductsTextPieces(items);
      TrimTrimmed(items[0]);
      TrimSpaced(items[1..]);
      assert TrimEach([items[0]] + PrefixEach(" ", items[1..])) == items;
    }
  }

  /** Cutting the products text at ',' gives the items, all but the first after a space. */
  lemma ProductsTextPieces(items: seq<string>)
    requires items != []
    requires forall i :: 0 <= i < |items| ==> ',' !in items[i]
    ensures Split(ProductsText(items), ',') == [items[0]] + PrefixEach(" ", items[1..])
  {
    SplitJoinCommaSpace("", items);
    assert "" + ProductsText(items) == ProductsText(items);
    assert "" + items[0] == items[0];
  }

  /** Re-parsing the shown text of a parsed list changes nothing. */
  lemma ProductsStable(text: string)
    ensures ParseProducts(ProductsText(ParseProducts(text))) == ParseProducts(text)
  {
    ProductsRoundTrip(ParseProducts(text));
  }

  // ---------- patrimony distribution: "efectivo:30, renta fija:40" ----------

  /** What a parsed key can be: trimmed, not blank, neither ',' nor ':'. */
  predicate IsPatrimonyKey(k: string) {
    k != "" && IsTrimmed(k) && ',' !in k && ':' !in k
  }

  /** The maps the patrimony field can hold. */
  predicate WellFormedPatrimony(m: Entries) {
    && DistinctKeys(m)
    && forall i :: 0 <= i < |m| ==> IsPatrimonyKey(m[i].0) && IsInt(m[i].1)
  }

  /** What an item that makes an entry yields: an `Int` under a trimmed key without ':'. */
  predicate ParsedEntry(e: (string, int)) {
    IsInt(e.1) && e.0 != "" && IsTrimmed(e.0) && ':' !in e.0
  }

  /**
   * One item: split at ':', trim both parts; exactly two parts with a
   * non-blank key make an entry, whose value is 0 unless it reads as an `Int`.
   */
  function ParsePatrimonyItem(item: string): (r: Option<(string, int)>)
    ensures r.Some? ==> ParsedEntry(r.value)
    ensures r.Some? && ',' !in item ==> ',' !in r.value.0
  {
    var raw := Split(item, ':');
    var parts := TrimEach(raw);
    if |parts| == 2 && !IsBlank(parts[0]) then
      Some((parts[0], ToIntOrNull(parts[1]).GetOr(0)))
    else None
  }

  /** An item with no ':' or with more than one makes no entry. */
  lemma ItemNeedsOneColon(item: string)
    requires multiset(item)[':'] != 1
    ensures ParsePatrimonyItem(item) == None
  {
    SplitCount(item, ':');
  }

  /**
   * The item rule: "key:text" with one ':' makes an entry exactly when the key
   * is not blank; the entry is the trimmed key and the trimmed text's `Int`, or 0.
   */
  lemma ItemRule(k: string, t: string)
    requires ':' !in k && ':' !in t
    ensures ParsePatrimonyItem(k + ":" + t)
         == if IsBlank(k) then None else Some((Trim(k), ToIntOrNull(Trim(t)).GetOr(0)))
  {
    assert k + ":" + t == k + [':'] + t;
    SplitAt(k, ':', t);
    SplitWithout(t, ':');
    assert Split(k + ":" + t, ':') == [k, t];
    BlankTrim(k);
  }

  /** `mapNotNull` of the item parser: the items that make an entry, in order. */
  function ParseItems(items: seq<string>): (r: Entries)
    ensures |r| <= |items|
    ensures forall e :: e in r ==> ParsedEntry(e)
  {
    if items == [] then []
    else
      var rest := ParseItems(items[1..]);
      match ParsePatrimonyItem(items[0])
      case Some(e) => [e] + rest
      case None => rest
  }

  /** The entries are exactly what the items make: `e` is parsed iff some item yields `e`. */
  lemma ParseItemsMembers(items: seq<string>)
    ensures forall e :: e in ParseItems(items) <==>
              exists i :: 0 <= i < |items| && ParsePatrimonyItem(items[i]) == Some(e)
  {
    ParsedEntriesFromItems(items);
    ItemEntriesParsed(items);
  }

  lemma ParsedEntriesFromItems(items: seq<string>)
    ensures forall e :: e in ParseItems(items) ==>
              exists i :: 0 <= i < |items| && ParsePatrimonyItem(items[i]) == Some(e)
  {
    var results := ItemResults(items);
    ParseItemsAreSomes(items);
    forall e | e in ParseItems(items)
      ensures exists i :: 0 <= i < |items| && ParsePatrimonyItem(items[i]) == Some(e)
    {
      SomesFrom(results, e);
      var i :| 0 <= i < |results| && results[i] == Some(e);
      assert ParsePatrimonyItem(items[i]) == Some(e);
    }
  }

  lemma ItemEntriesParsed(items: seq<string>)
    ensures forall i :: 0 <= i < |items| && ParsePatrimonyItem(items[i]).Some? ==>
              ParsePatrimonyItem(items[i]).value in ParseItems(items)
  {
    var results := ItemResults(items);
    ParseItemsAreSomes(items);
    forall i | 0 <= i < |items| && ParsePatrimonyItem(items[i]).Some?
      ensures ParsePatrimonyItem(items[i]).value in ParseItems(items)
    {
      SomesHas(results, i);
    }
  }

  /** What the item parser gives for each item, entry or null. */
  function ItemResults(items: seq<string>): (rs: seq<Option<(string, int)>>)
    ensures |rs| == |items|
    ensures forall i :: 0 <= i < |items| ==> rs[i] == ParsePatrimonyItem(items[i])
  {
    seq(|items|, i requires 0 <= i < |items| => ParsePatrimonyItem(items[i]))
  }

  /** The present values of a list of nullable results, in order. */
  function Somes<T>(rs: seq<Option<T>>): seq<T>
  {
    if rs == [] then []
    else if rs[0].Some? then [rs[0].value] + Somes(rs[1..])
    else Somes(rs[1..])
  }

  lemma {:induction false} SomesFrom<T>(rs: seq<Option<T>>, x: T)
    requires x in Somes(rs)
    ensures exists i :: 0 <= i < |rs| && rs[i] == Some(x)
  {
    if rs[0] != Some(x) {
      var tail := rs[1..];
      assert x in Somes(tail);
      SomesFrom(tail, x);
      var j :| 0 <= j < |tail| && tail[j] == Some(x);
      assert rs[j + 1] == Some(x);
    }
  }

  lemma {:induction false} SomesHas<T>(rs: seq<Option<T>>, i: int)
    requires 0 <= i < |rs| && rs[i].Some?
    ensures rs[i].value in Somes(rs)
  {
    if i > 0 {
      SomesHas(rs[1..], i - 1);
      assert rs[1..][i - 1] == rs[i];
    }
  }

  /** `mapNotNull` is the present values of the item results. */
  lemma {:induction false} ParseItemsAreSomes(items: seq<string>)
    ensures ParseItems(items) == Somes(ItemResults(items))
  {
    if items != [] {
      ParseItemsAreSomes(items[1..]);
      assert ItemResults(items)[1..] == ItemResults(items[1..]);
    }
  }


  /** Parsing keeps the items' order: the entries of `a + b` are those of `a`, then those of `b`. */
  lemma {:induction false} ParseItemsAppend(a: seq<string>, b: seq<string>)
    ensures ParseItems(a + b) == ParseItems(a) + ParseItems(b)
  {
    if a == [] {
      assert a + b == b;
    } else {
      assert (a + b)[0] == a[0] && (a + b)[1..] == a[1..] + b;
      ParseItemsAppend(a[1..], b);
    }
  }

  /** Items cut at ',' hold no ',', and neither do the keys they give. */
  lemma {:induction false} ParseItemsNoComma(items: seq<string>)
    requires forall i :: 0 <= i < |items| ==> ',' !in items[i]
    ensures forall e :: e in ParseItems(items) ==> ',' !in e.0
  {
    if items != [] {
      ParseItemsNoComma(items[1..]);
    }
  }

  /** The patrimony field's edit: blank text is the empty map, otherwise the items' `toMap()`. */
  function ParsePatrimony(text: string): (m: Entries)
    ensures WellFormedPatrimony(m)
    ensures IsBlank(text) ==> m == []
  {
    if IsBlank(text) then []
    else
      var pairs := ParseItems(Split(text, ','));
      ParseItemsNoComma(Split(text, ','));
      var m := ToMap(pairs);
      assert forall i :: 0 <= i < |m| ==> m[i] in pairs;
      m
  }

  /** A repeated key keeps the value of its last item. */
  lemma PatrimonyLastWins(text: string, k: string)
    requires !IsBlank(text)
    ensures Get(ParsePatrimony(text), k) == LastValue(ParseItems(Split(text, ',')), k)
  {
    ToMapLastWins(ParseItems(Split(text, ',')), k);
  }

  /** An entry as the field shows it: "key:value". */
  function EntryText(e: (string, int)): (text: string)
    ensures |text| > |e.0| && text[..|e.0|] == e.0 && text[|e.0|] == ':'
    ensures text[|e.0| + 1..] == IntToString(e.1)
  {
    e.0 + ":" + IntToString(e.1)
  }

  /** An entry's text holds exactly one ':' when its key holds none. */
  lemma EntryTextColon(e: (string, int))
    requires ':' !in e.0
    ensures multiset(EntryText(e))[':'] == 1
  {
    IntToStringPlain(e.1);
    assert multiset(IntToString(e.1))[':'] == 0;
    assert EntryText(e) == e.0 + ":" + IntToString(e.1);
  }

  function EntryTexts(m: Entries): (r: seq<string>)
    ensures |r| == |m|
    ensures forall i :: 0 <= i < |r| ==> r[i] == EntryText(m[i])
  {
    if m == [] then [] else [EntryText(m[0])] + EntryTexts(m[1..])
  }

  /** The patrimony field's text: "" for the empty map, else "key:value" joined by ", ". */
  function PatrimonyText(m: Entries): (text: string)
    ensures text == "" <==> m == []
    ensures m != [] ==> EntryText(m[0]) <= text
  {
    if m == [] then ""
    else
      JoinEnds(EntryTexts(m), ", ");
      Join(EntryTexts(m), ", ")
  }

  /** An entry's text, after any leading whitespace, parses back to the entry. */
  lemma ParseEntryText(pre: string, e: (string, int))
    requires IsBlank(pre)
    requires IsPatrimonyKey(e.0) && IsInt(e.1)
    ensures ParsePatrimonyItem(pre + EntryText(e)) == Some(e)
  {
    var (k, v) := e;
    var digits := IntToString(v);
    IntToStringPlain(v);
    WhitespaceChars(pre);
    assert pre + EntryText(e) == (pre + k) + ":" + digits;
    TrimBlankPrefix(pre, k);
    TrimTrimmed(k);
    TrimTrimmed(digits);
    IntToStringRoundTrip(v);
    ItemRule(pre + k, digits);
  }

  lemma {:induction false} ParseSpacedEntries(m: Entries)
    requires forall i :: 0 <= i < |m| ==> IsPatrimonyKey(m[i].0) && IsInt(m[i].1)
    ensures ParseItems(PrefixEach(" ", EntryTexts(m))) == m
  {
    if m != [] {
      var first := " " + EntryText(m[0]);
      var later := PrefixEach(" ", EntryTexts(m[1..]));
      SpacedTextsCons(m);
      ParseEntryText(" ", m[0]);
      ParseItemsCons(first, later, m[0]);
      ParseSpacedEntries(m[1..]);
      assert [m[0]] + m[1..] == m;
    }
  }

  /** The spaced texts of a non-empty map: the first entry's, then the rest's. */
  lemma SpacedTextsCons(m: Entries)
    requires m != []
    ensures PrefixEach(" ", EntryTexts(m)) == [" " + EntryText(m[0])] + PrefixEach(" ", EntryTexts(m[1..]))
  {
    assert EntryTexts(m) == [EntryText(m[0])] + EntryTexts(m[1..]);
    assert EntryTexts(m)[1..] == EntryTexts(m[1..]);
  }

  /** An item that makes an entry puts that entry in front of the rest's. */
  lemma ParseItemsCons(item: string, rest: seq<string>, e: (string, int))
    requires ParsePatrimonyItem(item) == Some(e)
    ensures ParseItems([item] + rest) == [e] + ParseItems(rest)
  {
    assert ([item] + rest)[1..] == rest;
  }

  /** The field's text of a non-empty map starts with the first key, so it is not blank. */
  lemma PatrimonyTextNotBlank(m: Entries)
    requires m != [] && IsPatrimonyKey(m[0].0)
    ensures !IsBlank(PatrimonyText(m))
  {
    var texts := EntryTexts(m);
    var text := PatrimonyText(m);
    assert texts[0] == m[0].0 + ":" + IntToString(m[0].1);
    if |texts| > 1 {
      assert text == texts[0] + ", " + Join(texts[1..], ", ");
    }
    assert text[0] == m[0].0[0];
  }

  /** Cutting the field's text at ',' gives the entries' texts, all but the first after a space. */
  lemma SplitPatrimonyText(m: Entries)
    requires m != []
    requires forall i :: 0 <= i < |m| ==> IsPatrimonyKey(m[i].0)
    ensures Split(PatrimonyText(m), ',') == [EntryText(m[0])] + PrefixEach(" ", EntryTexts(m[1..]))
  {
    var texts := EntryTexts(m);
    forall i | 0 <= i < |texts| ensures ',' !in texts[i] {
      IntToStringPlain(m[i].1);
    }
    SplitJoinCommaSpace("", texts);
    assert "" + PatrimonyText(m) == PatrimonyText(m);
    assert "" + texts[0] == texts[0];
    assert texts[1..] == EntryTexts(m[1..]);
  }

  /** The items of the field's text are exactly the entries of the map. */
  lemma PatrimonyTextItems(m: Entries)
    requires m != []
    requires forall i :: 0 <= i < |m| ==> IsPatrimonyKey(m[i].0) && IsInt(m[i].1)
    ensures ParseItems(Split(PatrimonyText(m), ',')) == m
  {
    SplitPatrimonyText(m);
    ParseEntryTexts(m);
  }

  /** The first entry's text, then the others' after a space, parse back to the entries. */
  lemma ParseEntryTexts(m: Entries)
    requires m != []
    requires forall i :: 0 <= i < |m| ==> IsPatrimonyKey(m[i].0) && IsInt(m[i].1)
    ensures ParseItems([EntryText(m[0])] + PrefixEach(" ", EntryTexts(m[1..]))) == m
  {
    ParseBareEntryText(m[0]);
    ParseItemsCons(EntryText(m[0]), PrefixEach(" ", EntryTexts(m[1..])), m[0]);
    ParseSpacedEntries(m[1..]);
    assert [m[0]] + m[1..] == m;
  }

  /** An entry's text parses back to the entry. */
  lemma ParseBareEntryText(e: (string, int))
    requires IsPatrimonyKey(e.0) && IsInt(e.1)
    ensures ParsePatrimonyItem(EntryText(e)) == Some(e)
  {
    ParseEntryText("", e);
    assert "" + EntryText(e) == EntryText(e);
  }

  /** Parsing the field's own text gives back the map it shows. */
  lemma PatrimonyRoundTrip(m: Entries)
    requires WellFormedPatrimony(m)
    ensures ParsePatrimony(PatrimonyText(m)) == m
  {
    if m != [] {
      var text := PatrimonyText(m);
      PatrimonyTextNotBlank(m);
      PatrimonyTextItems(m);
      ToMapDistinct(m);
      assert ParsePatrimony(text) == ToMap(ParseItems(Split(text, ',')));
    }
  }

  /** Re-parsing the shown text of a parsed map changes nothing. */
  lemma PatrimonyStable(text: string)
    ensures ParsePatrimony(PatrimonyText(ParsePatrimony(text))) == ParsePatrimony(text)
  {
    PatrimonyRoundTrip(ParsePatrimony(text));
  }
}
