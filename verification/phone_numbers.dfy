/**
 * `normalizeTel` of the identity-completion endpoint: a Thai phone number is
 * trimmed, stripped of whitespace and hyphens, and its national prefix is
 * rewritten to the +66 country code.
 */
module PhoneNumbers {
  import opened JsText

  /** What the character class `[\s-]` matches. */
  predicate IsSeparator(c: char) { IsJsWhitespace(c) || c == '-' }

  predicate NotSeparator(c: char) { !IsSeparator(c) }

  predicate HasNoSeparator(s: string) {
    forall i :: 0 <= i < |s| ==> !IsSeparator(s[i])
  }

  /** `s.replace(/[\s-]/g, '')` */
  function RemoveSeparators(s: string): (r: string)
    ensures HasNoSeparator(r)
    ensures forall c :: c in r <==> c in s && !IsSeparator(c)
  {
    var r := Filter(s, NotSeparator);
    FilterMembers(s, NotSeparator);
    assert forall i :: 0 <= i < |r| ==> r[i] in r;
    r
  }

  /** The prefix rewriting, applied to the number once it is compacted. */
  function RewritePrefix(s: string): string
  {
    if StartsWith(s, "+660") then "+66" + s[4..]
    else if StartsWith(s, "0") then "+66" + s[1..]
    else if StartsWith(s, "66") && !StartsWith(s, "+") then "+" + s
    else s
  }

  /** Rewriting a prefix adds only '+' and digits, so it keeps a compact number compact. */
  lemma RewriteKeepsCompact(s: string)
    requires HasNoSeparator(s)
    ensures HasNoSeparator(RewritePrefix(s))
  {
    var r := RewritePrefix(s);
    if StartsWith(s, "+660") {
      assert forall i :: 3 <= i < |r| ==> r[i] == s[i + 1];
    } else if StartsWith(s, "0") {
      assert forall i :: 3 <= i < |r| ==> r[i] == s[i - 2];
    } else if StartsWith(s, "66") {
      assert forall i :: 1 <= i < |r| ==> r[i] == s[i - 1];
    }
  }

  /** Rewriting a prefix never empties a number and never fills an empty one. */
  lemma RewriteKeepsEmptiness(s: string)
    ensures RewritePrefix(s) == [] <==> s == []
  {
  }

  /** `normalizeTel(tel)`: null for a missing or empty input, otherwise the compacted, rewritten number. */
  function NormalizeTel(tel: Option<string>): (r: Option<string>)
    ensures r.None? <==> !Truthy(tel)
    ensures r.Some? ==> HasNoSeparator(r.value)
  {
    if !Truthy(tel) then None
    else
      var compact := RemoveSeparators(Trim(tel.value));
      RewriteKeepsCompact(compact);
      Some(RewritePrefix(compact))
  }

  /** Filtering out separators drops a run of whitespace entirely. */
  lemma RemoveSeparatorsOfBlank(s: string)
    requires forall i :: 0 <= i < |s| ==> IsJsWhitespace(s[i])
    ensures RemoveSeparators(s) == []
  {
    FilterDropsAll(s, NotSeparator);
  }

  /** The whitespace TrimStart drops would have been filtered out anyway. */
  lemma {:induction false} FilterIgnoresTrimStart(s: string)
    ensures Filter(TrimStart(s), NotSeparator) == Filter(s, NotSeparator)
  {
    if s != [] && IsJsWhitespace(s[0]) {
      FilterIgnoresTrimStart(s[1..]);
      assert s == [s[0]] + s[1..];
      FilterAppend([s[0]], s[1..], NotSeparator);
      assert Filter([s[0]], NotSeparator) == [];
    }
  }

  /** The whitespace TrimEnd drops would have been filtered out anyway. */
  lemma {:induction false} FilterIgnoresTrimEnd(s: string)
    ensures Filter(TrimEnd(s), NotSeparator) == Filter(s, NotSeparator)
  {
    if s != [] && IsJsWhitespace(s[|s| - 1]) {
      FilterIgnoresTrimEnd(s[..|s| - 1]);
    }
  }

  /** Dropping whitespace from both ends commutes with filtering out the separators. */
  lemma FilterIgnoresTrim(s: string)
    ensures Filter(Trim(s), NotSeparator) == Filter(s, NotSeparator)
  {
    FilterIgnoresTrimStart(s);
    FilterIgnoresTrimEnd(TrimStart(s));
  }

  /** Trimming first changes nothing: the global replace removes the same whitespace. */
  lemma TrimIsSubsumed(s: string)
    ensures RemoveSeparators(Trim(s)) == RemoveSeparators(s)
  {
    FilterIgnoresTrim(s);
  }

  /** A compact number is left as it is by trimming and by the separator replace. */
  lemma CompactIsStable(s: string)
    requires HasNoSeparator(s)
    ensures RemoveSeparators(Trim(s)) == s
  {
    assert IsTrimmed(s);
    TrimOfTrimmed(s);
    FilterKeepsAll(s, NotSeparator);
  }

  /**
   * The prefix rules, stated on the input with every whitespace character
   * and hyphen removed.
   */
  lemma PrefixRules(tel: string)
    requires tel != ""
    ensures var c, r := RemoveSeparators(tel), NormalizeTel(Some(tel)).value;
      && (StartsWith(c, "+660") ==> r == "+66" + c[4..])
      && (StartsWith(c, "0") ==> r == "+66" + c[1..])
      && (StartsWith(c, "66") ==> r == "+" + c)
      && (!StartsWith(c, "+660") && !StartsWith(c, "0") && !StartsWith(c, "66") ==> r == c)
  {
    TrimIsSubsumed(tel);
    var c := RemoveSeparators(tel);
    if StartsWith(c, "66") {
      assert c[0] == '6';
    }
  }

  /** A number written nationally ("0…"), with "66" or with "+66" comes out with the +66 country code. */
  lemma CountryCodePrefix(tel: string)
    requires tel != ""
    requires var c := RemoveSeparators(tel);
      StartsWith(c, "0") || StartsWith(c, "66") || StartsWith(c, "+66")
    ensures StartsWith(NormalizeTel(Some(tel)).value, "+66")
  {
    TrimIsSubsumed(tel);
  }

  /**
   * Normalising again leaves an output unchanged, unless the output is empty
   * (an input of only separators) or still starts with "+660".
   */
  lemma NormalizeTelFixedPoint(tel: Option<string>)
    requires NormalizeTel(tel).Some?
    requires var r := NormalizeTel(tel).value; r != "" && !StartsWith(r, "+660")
    ensures NormalizeTel(NormalizeTel(tel)) == NormalizeTel(tel)
  {
    var c := RemoveSeparators(Trim(tel.value));
    var r := RewritePrefix(c);
    assert NormalizeTel(tel) == Some(r);
    CompactIsStable(r);
    assert NormalizeTel(Some(r)) == Some(RewritePrefix(r));
    RewrittenIsStable(c);
  }

  /** A rewritten number that is not empty and does not start with "+660" is left alone by a second rewrite. */
  lemma RewrittenIsStable(c: string)
    requires var r := RewritePrefix(c); r != "" && !StartsWith(r, "+660")
    ensures RewritePrefix(RewritePrefix(c)) == RewritePrefix(c)
  {
    var r := RewritePrefix(c);
    if StartsWith(c, "+660") || StartsWith(c, "0") || StartsWith(c, "66") {
      assert r[0] == '+';
      assert !StartsWith(r, "0") && !StartsWith(r, "66");
    }
  }

  lemma CompactConcat(a: string, b: string)
    requires HasNoSeparator(a) && HasNoSeparator(b)
    ensures HasNoSeparator(a + b)
  {
    assert forall i :: |a| <= i < |a + b| ==> (a + b)[i] == b[i - |a|];
  }

  /** A compact national number ("0…") gains the country code in place of its leading zero. */
  lemma NationalPrefixRewritten(d: string)
    requires HasNoSeparator(d)
    ensures NormalizeTel(Some("0" + d)) == Some("+66" + d)
  {
    var s := "0" + d;
    CompactConcat("0", d);
    CompactIsStable(s);
    assert NormalizeTel(Some(s)) == Some(RewritePrefix(s));
    RewriteNational(s);
    assert s[1..] == d;
  }

  lemma RewriteNational(s: string)
    requires StartsWith(s, "0")
    ensures RewritePrefix(s) == "+66" + s[1..]
  {
    assert s[0] == '0';
  }

  /** A compact "+660…" number loses the zero after the country code. */
  lemma InternationalZeroDropped(d: string)
    requires HasNoSeparator(d)
    ensures NormalizeTel(Some("+660" + d)) == Some("+66" + d)
  {
    var s := "+660" + d;
    CompactConcat("+660", d);
    CompactIsStable(s);
    assert s[..4] == "+660" && s[4..] == d;
  }

  /**
   * Normalisation is not idempotent: a doubled national prefix loses one
   * zero per pass ("00812" gives "+660812", which gives "+66812").
   */
  lemma NormalizeTelNotIdempotent(d: string)
    requires HasNoSeparator(d)
    ensures NormalizeTel(Some("00" + d)) == Some("+660" + d)
    ensures NormalizeTel(NormalizeTel(Some("00" + d))) == Some("+66" + d)
  {
    CompactConcat("0", d);
    NationalPrefixRewritten("0" + d);
    assert "0" + ("0" + d) == "00" + d;
    assert "+66" + ("0" + d) == "+660" + d;
    InternationalZeroDropped(d);
  }
}
