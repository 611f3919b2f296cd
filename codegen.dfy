/**
  The texts the scripts assemble by concatenation: the `getProbability`
  codeblock handed to CalculateField (header, one `<name>_dict=` line per
  species, the `pdict` literal, the fixed policy tail), the per-species
  field expression, and the names of the per-species layers, statistics
  tables and spatial-join outputs.
*/
module Codegen {
  import opened Wrappers

  /** The codeblock header of spatialjoin.py, which starts on a new line. */
  const HeaderSpatialJoin: string := "\ndef getProbability(species, stream_order, join_count):"

  /** The codeblock header of species_stream_order.py, without the leading newline. */
  const HeaderSpeciesStreamOrder: string := "def getProbability(species, stream_order, join_count):"

  /** The line that defines one species' dictionary from its text. */
  function DictLine(name: string, dictText: string): string {
    "\n" + "\t" + name + "_dict" + "=" + dictText
  }

  /** Opens the dictionary of dictionaries. */
  const PdictOpen: string := "\n" + "\t" + "pdict = {"

  /** One `pdict` entry; both branches of the script append the same text, trailing comma included. */
  function PdictEntry(name: string): string {
    "'" + name + "'" + ":" + name + "_dict" + ","
  }

  const PdictClose: string := "}"

  /** The fixed tail of the generated function: the comment lines and the three-way branch. */
  const PolicyTail: string :=
    "\n#pdict = {\"hardhead\" : hardhead_dict, \"rainbow_trout\": rainbow_trout_dict}" +
    "\n#if stream segment not in spatial join, set prob to 0    " +
    "\n\tif join_count == 0:" +
    "\n\t\treturn '0'" +
    "\n\t\t#if stream order is negative (coastline) or does not exist set prob to \"NA\"" +
    "\n\tif stream_order is None or stream_order < 0 or str(stream_order) == 'nan':" +
    "\n\t\treturn 'N/A'" +
    "\n\t\t#call stream order/probability dictionary" +
    "\n\telse:" +
    "\n\t\treturn str(pdict[species][stream_order])"

  /** All dictionary lines, in feature order. */
  function DictLines(names: seq<string>, texts: seq<string>): string
    requires |names| == |texts|
  {
    if names == [] then "" else DictLine(names[0], texts[0]) + DictLines(names[1..], texts[1..])
  }

  /** All `pdict` entries, in feature order. */
  function PdictEntries(names: seq<string>): string {
    if names == [] then "" else PdictEntry(names[0]) + PdictEntries(names[1..])
  }

  /** The whole codeblock for the given species and dictionary texts. */
  function CodeblockText(header: string, names: seq<string>, texts: seq<string>): string
    requires |names| == |texts|
  {
    header + DictLines(names, texts) + PdictOpen + PdictEntries(names) + PdictClose + PolicyTail
  }

  /** Appending one more species' line extends the dictionary lines at the end. */
  lemma {:induction false} DictLinesSnoc(names: seq<string>, texts: seq<string>)
    requires |names| == |texts| > 0
    ensures DictLines(names, texts) ==
              DictLines(names[..|names| - 1], texts[..|texts| - 1]) + DictLine(names[|names| - 1], texts[|texts| - 1])
  {
    if |names| > 1 {
      DictLinesSnoc(names[1..], texts[1..]);
      assert names[1..][..|names| - 2] == names[..|names| - 1][1..];
      assert texts[1..][..|texts| - 2] == texts[..|texts| - 1][1..];
    }
  }

  /** Appending one more `pdict` entry extends the entries at the end. */
  lemma {:induction false} PdictEntriesSnoc(names: seq<string>)
    requires |names| > 0
    ensures PdictEntries(names) == PdictEntries(names[..|names| - 1]) + PdictEntry(names[|names| - 1])
  {
    if |names| > 1 {
      PdictEntriesSnoc(names[1..]);
      assert names[1..][..|names| - 2] == names[..|names| - 1][1..];
    }
  }

  /** A feature class name: it never contains a quote. */
  predicate PlainName(name: string) {
    forall c :: c in name ==> c != '\''
  }

  /** The first quote at or after position i, or |s| when there is none. */
  function NextQuote(s: string, i: nat): (q: nat)
    requires i <= |s|
    ensures i <= q <= |s|
    ensures q < |s| ==> s[q] == '\''
    ensures forall k :: i <= k < q ==> s[k] != '\''
    decreases |s| - i
  {
    if i == |s| || s[i] == '\'' then i else NextQuote(s, i + 1)
  }

  /** Reads a `pdict` literal body back into the species names it lists. */
  function ParseEntries(s: string): Option<seq<string>>
    decreases |s|
  {
    if s == [] then Some([])
    else if s[0] != '\'' then None
    else
      var q := NextQuote(s, 1);
      if q == |s| then None
      else
        var name := s[1..q];
        var rest := s[q + 1..];
        var sep := ":" + name + "_dict" + ",";
        if |rest| < |sep| || rest[..|sep|] != sep then None
        else
          match ParseEntries(rest[|sep|..])
          case None => None
          case Some(names) => Some([name] + names)
  }

  /** Parsing one entry in front of more text peels off exactly that entry's name. */
  lemma ParseOneEntry(name: string, tail: string)
    requires PlainName(name)
    ensures ParseEntries(PdictEntry(name) + tail) ==
              match ParseEntries(tail)
              case None => None
              case Some(names) => Some([name] + names)
  {
    var sep := ":" + name + "_dict" + ",";
    var s := PdictEntry(name) + tail;
    assert s == ['\''] + name + ['\''] + sep + tail;
    assert s[0] == '\'';
    assert forall k :: 1 <= k < 1 + |name| ==> s[k] == name[k - 1];
    assert s[1 + |name|] == '\'';
    var q := NextQuote(s, 1);
    forall k | 1 <= k < 1 + |name| ensures s[k] != '\'' {
      assert s[k] == name[k - 1];
      assert name[k - 1] in name;
    }
    assert q == 1 + |name|;
    assert s[1..q] == name;
    var rest := s[q + 1..];
    assert rest == sep + tail;
    assert rest[..|sep|] == sep;
    assert rest[|sep|..] == tail;
  }

  /**
    The `pdict` text lists every species exactly once and in feature order:
    reading it back gives the feature list itself.
  */
  lemma {:induction false} PdictEntriesRoundTrip(names: seq<string>)
    requires forall k :: 0 <= k < |names| ==> PlainName(names[k])
    ensures ParseEntries(PdictEntries(names)) == Some(names)
  {
    if names != [] {
      ParseOneEntry(names[0], PdictEntries(names[1..]));
      PdictEntriesRoundTrip(names[1..]);
      assert [names[0]] + names[1..] == names;
    }
  }

  /** The text of the CalculateField expression before and after the species name. */
  const ExpressionPrefix: string := "getProbability('"
  const ExpressionSuffix: string := "', !StreamOrde!, !Join_Count!)"

  /** The CalculateField expression for one species. */
  function Expression(species: string): string {
    ExpressionPrefix + species + ExpressionSuffix
  }

  /** The species name an expression passes to `getProbability`, if it has the generated shape. */
  function ExpressionSpecies(e: string): Option<string> {
    if |e| >= |ExpressionPrefix| + |ExpressionSuffix|
       && e[..|ExpressionPrefix|] == ExpressionPrefix
       && e[|e| - |ExpressionSuffix|..] == ExpressionSuffix
    then Some(e[|ExpressionPrefix|..|e| - |ExpressionSuffix|])
    else None
  }

  /** The expression passes exactly its own species to `getProbability`. */
  lemma ExpressionRoundTrip(species: string)
    ensures ExpressionSpecies(Expression(species)) == Some(species)
  {
    var e := Expression(species);
    assert e == ExpressionPrefix + species + ExpressionSuffix;
    assert e[..|ExpressionPrefix|] == ExpressionPrefix;
    assert e[|e| - |ExpressionSuffix|..] == ExpressionSuffix;
    assert e[|ExpressionPrefix|..|e| - |ExpressionSuffix|] == species;
  }

  /** `"in_memory" + "/" + "SpatialJoin" + "_" + i`: spatialjoin.py's per-species join output. */
  function TempClassName(species: string): string {
    "in_memory" + "/" + "SpatialJoin" + "_" + species
  }

  /** `"SpatialJoin" + "_" + i`: spatialjoin_test.py's per-species join output. */
  function TestClassName(species: string): string {
    "SpatialJoin" + "_" + species
  }

  /** `i + "_layer"`: the species' feature layer. */
  function LayerName(species: string): string {
    species + "_layer"
  }

  /** `"Stats_" + i`: the species' statistics table. */
  function StatsTableName(species: string): string {
    "Stats_" + species
  }

  /** Distinct species get distinct layers, statistics tables and join outputs. */
  lemma NamesInjective(a: string, b: string)
    ensures LayerName(a) == LayerName(b) ==> a == b
    ensures StatsTableName(a) == StatsTableName(b) ==> a == b
    ensures TempClassName(a) == TempClassName(b) ==> a == b
    ensures TestClassName(a) == TestClassName(b) ==> a == b
  {
    if LayerName(a) == LayerName(b) {
      assert a == LayerName(a)[..|a|] && b == LayerName(b)[..|b|];
    }
    if StatsTableName(a) == StatsTableName(b) {
      assert a == StatsTableName(a)[6..] && b == StatsTableName(b)[6..];
    }
    if TempClassName(a) == TempClassName(b) {
      assert a == TempClassName(a)[22..] && b == TempClassName(b)[22..];
    }
    if TestClassName(a) == TestClassName(b) {
      assert a == TestClassName(a)[12..] && b == TestClassName(b)[12..];
    }
  }
}
