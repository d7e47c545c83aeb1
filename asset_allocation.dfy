/**
 * The asset-allocation doughnut: category keys such as `REAL_ESTATE` become
 * labels such as `Real Estate`, the values become the chart data, the first
 * colours of a fixed palette colour the slices, and the centre shows the sum
 * of the values. Entries are given in the order `Object.keys` lists them.
 */
module AssetAllocation {
  import opened Common
  import opened Text

  /** The six slice colours, in order. */
  const Palette: seq<string> := [
    "rgb(59, 130, 246)",
    "rgb(16, 185, 129)",
    "rgb(245, 158, 11)",
    "rgb(239, 68, 68)",
    "rgb(139, 92, 246)",
    "rgb(236, 72, 153)"
  ]

  /** `key.replace(/_/g, ' ')`. */
  function ReplaceUnderscores(key: string): (r: string)
    ensures |r| == |key|
    ensures forall i :: 0 <= i < |key| ==> r[i] == (if key[i] == '_' then ' ' else key[i])
  {
    seq(|key|, i requires 0 <= i < |key| => if key[i] == '_' then ' ' else key[i])
  }

  /**
   * `s.replace(/\b\w/g, l => l.toUpperCase())`: a word character right after
   * a non-word character (or at the start) is upper-cased. `prevIsWord`
   * says whether the character before `s` is a word character.
   */
  function CapitalizeWords(s: string, prevIsWord: bool): (r: string)
    ensures |r| == |s|
    decreases |s|
  {
    if s == [] then []
    else
      var c := if !prevIsWord && IsWordChar(s[0]) then ToUpper(s[0]) else s[0];
      [c] + CapitalizeWords(s[1..], IsWordChar(s[0]))
  }

  /** The formatting applied to every key, for the chart labels and for the breakdown rows. */
  function FormatLabel(key: string): string
  {
    CapitalizeWords(Lower(ReplaceUnderscores(key)), false)
  }

  predicate IsAlnum(c: char) { IsUpper(c) || IsLower(c) || IsDigit(c) }

  /** Character `i` of the key starts a word of the label. */
  predicate StartsWord(key: string, i: nat)
    requires i < |key|
  {
    i == 0 || !IsAlnum(key[i - 1])
  }

  /** The label character for key character `i`, stated on its own. */
  function LabelChar(key: string, i: nat): char
    requires i < |key|
  {
    if key[i] == '_' then ' '
    else if StartsWord(key, i) then ToUpper(ToLower(key[i]))
    else ToLower(key[i])
  }

  lemma {:induction false} CapitalizeWordsAt(s: string, prevIsWord: bool, i: nat)
    requires i < |s|
    ensures CapitalizeWords(s, prevIsWord)[i]
         == if (if i == 0 then !prevIsWord else !IsWordChar(s[i - 1])) && IsWordChar(s[i]) then ToUpper(s[i]) else s[i]
    decreases i
  {
    if i > 0 {
      CapitalizeWordsAt(s[1..], IsWordChar(s[0]), i - 1);
    }
  }

  /** The three passes of the label callback agree with the character-by-character rule. */
  lemma FormatLabelAt(key: string, i: nat)
    requires i < |key|
    ensures |FormatLabel(key)| == |key|
    ensures FormatLabel(key)[i] == LabelChar(key, i)
  {
    var lowered := Lower(ReplaceUnderscores(key));
    CapitalizeWordsAt(lowered, false, i);
    if i > 0 {
      assert IsWordChar(lowered[i - 1]) <==> IsAlnum(key[i - 1]);
    }
  }

  /** A label has the key's length, holds no `_`, and each word starts upper case with the rest lower case. */
  lemma LabelShape(key: string)
    ensures |FormatLabel(key)| == |key|
    ensures '_' !in FormatLabel(key)
    ensures forall i :: 0 <= i < |key| && StartsWord(key, i) && IsLower(ToLower(key[i])) ==> IsUpper(FormatLabel(key)[i])
    ensures forall i :: 0 <= i < |key| && !StartsWord(key, i) ==> !IsUpper(FormatLabel(key)[i])
  {
    var shown := FormatLabel(key);
    forall i | 0 <= i < |key|
      ensures shown[i] == LabelChar(key, i)
    {
      FormatLabelAt(key, i);
    }
    assert |shown| == |key| by {
      if |key| > 0 { FormatLabelAt(key, 0); }
    }
  }

  /** `REAL_ESTATE` is shown as `Real Estate`. */
  lemma RealEstateLabel()
    ensures FormatLabel("REAL_ESTATE") == "Real Estate"
  {
    var key := "REAL_ESTATE";
    var shown := FormatLabel(key);
    forall i | 0 <= i < |key|
      ensures shown[i] == "Real Estate"[i]
    {
      FormatLabelAt(key, i);
    }
    FormatLabelAt(key, 0);
  }

  datatype ChartData = ChartData(
    labels: seq<string>,
    data: seq<real>,
    backgroundColor: seq<string>,
    borderColor: seq<string>)

  function Keys(entries: seq<(string, real)>): (ks: seq<string>)
    ensures |ks| == |entries| && forall i :: 0 <= i < |entries| ==> ks[i] == entries[i].0
  {
    seq(|entries|, i requires 0 <= i < |entries| => entries[i].0)
  }

  function Values(entries: seq<(string, real)>): (vs: seq<real>)
    ensures |vs| == |entries| && forall i :: 0 <= i < |entries| ==> vs[i] == entries[i].1
  {
    seq(|entries|, i requires 0 <= i < |entries| => entries[i].1)
  }

  /** `colors.slice(0, n)`. */
  function SliceColors(n: nat): (cs: seq<string>)
    ensures |cs| == if n < |Palette| then n else |Palette|
    ensures cs <= Palette
  {
    if n < |Palette| then Palette[..n] else Palette
  }

  /** The chart's labels, data and colours, entry by entry. */
  function BuildChartData(entries: seq<(string, real)>): (c: ChartData)
    ensures |c.labels| == |entries| && |c.data| == |entries|
    ensures forall i :: 0 <= i < |entries| ==> c.labels[i] == FormatLabel(entries[i].0) && c.data[i] == entries[i].1
    ensures |c.backgroundColor| == (if |entries| < 6 then |entries| else 6)
    ensures c.backgroundColor <= Palette
    ensures c.borderColor == c.backgroundColor
  {
    var ks := Keys(entries);
    ChartData(
      seq(|ks|, i requires 0 <= i < |ks| => FormatLabel(ks[i])),
      Values(entries),
      SliceColors(|ks|),
      SliceColors(|ks|))
  }

  /** The swatch of breakdown row `index`: `colors[index]`, undefined past the palette. */
  function Swatch(index: nat): (c: Option<string>)
    ensures c.Some? <==> index < |Palette|
    ensures c.Some? ==> c.value == Palette[index]
  {
    if index < |Palette| then Some(Palette[index]) else None
  }

  /** The centre figure: `Object.values(data).reduce((sum, value) => sum + value, 0)`. */
  function TotalValue(entries: seq<(string, real)>): (total: real)
    ensures total == Sum(Values(entries))
  {
    SumFromIsSum(0.0, Values(entries));
    SumFrom(0.0, Values(entries))
  }

  /** Adding an entry adds its value to the centre figure. */
  lemma TotalValueAppend(entries: seq<(string, real)>, key: string, value: real)
    ensures TotalValue(entries + [(key, value)]) == TotalValue(entries) + value
  {
    assert Values(entries + [(key, value)]) == Values(entries) + [value];
    SumAppend(Values(entries), [value]);
  }
}
