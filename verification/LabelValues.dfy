/** Label values made of arbitrary text (`KubernetesLabelValue`). */
module LabelValues {
  import opened GoText

  const MAX_LABEL := 63
  const HASH_LENGTH := 12

  /** `shortLabelHash`. */
  type Hash = string -> string

  predicate IsEdge(c: char) { 'a' <= c <= 'z' || '0' <= c <= '9' }

  predicate IsLabelChar(c: char) { IsEdge(c) || c == '-' || c == '_' || c == '.' }

  /** What `addLabel` accepts. */
  predicate ValidLabel(s: string) {
    && 0 < |s| <= MAX_LABEL
    && IsEdge(s[0]) && IsEdge(s[|s| - 1])
    && forall i | 0 <= i < |s| :: IsLabelChar(s[i])
  }

  predicate AllLabelChars(s: string) {
    forall i | 0 <= i < |s| :: IsLabelChar(s[i])
  }

  ghost predicate HashesAreHex(hash: Hash) {
    forall s :: |hash(s)| == HASH_LENGTH && forall i | 0 <= i < HASH_LENGTH :: IsEdge(hash(s)[i])
  }

  /** Trimming and lower-casing leave valid labels alone. */
  ghost predicate KeepsLabels(text: Text) {
    forall s | ValidLabel(s) :: text.trim(s) == s && text.lower(s) == s
  }

  /** Characters that do not belong become dashes, a run of them one dash. */
  function Dashes(s: string): (string, bool) {
    if s == "" then ("", false)
    else
      var (front, lastDash) := Dashes(s[..|s| - 1]);
      var c := s[|s| - 1];
      if IsLabelChar(c) then (front + [c], false)
      else if lastDash then (front, true)
      else (front + "-", true)
  }

  /** `strings.Trim(s, "-_.")` of label characters. */
  function TrimLeft(s: string): string {
    if s != "" && !IsEdge(s[0]) then TrimLeft(s[1..]) else s
  }

  function TrimRight(s: string): string {
    if s != "" && !IsEdge(s[|s| - 1]) then TrimRight(s[..|s| - 1]) else s
  }

  function Trimmed(s: string): string {
    TrimRight(TrimLeft(s))
  }

  /** A long value is cut and carries the hash of the original. */
  function Shortened(hash: Hash, original: string, normalized: string): string {
    var suffix := "-" + hash(original);
    var limit := MAX_LABEL - |suffix|;
    if limit < 1 then Trimmed(suffix)
    else
      var cut := Trimmed(if limit < |normalized| then normalized[..limit] else normalized);
      if cut == "" then Trimmed(suffix) else cut + suffix
  }

  function LabelValue(text: Text, hash: Hash, value: string): string {
    var original := text.trim(value);
    if original == "" then ""
    else
      var trimmed := Trimmed(Dashes(text.lower(original)).0);
      var normalized := if trimmed == "" then hash(original) else trimmed;
      if ValidLabel(normalized) then normalized else Shortened(hash, original, normalized)
  }

  /** `KubernetesLabelValue`. */
  method KubernetesLabelValue(text: Text, hash: Hash, value: string) returns (result: string)
    ensures result == LabelValue(text, hash, value)
  {
    var original := text.trim(value);
    if original == "" {
      return "";
    }
    var lowered := text.lower(original);
    var built := "";
    var lastDash := false;
    for i := 0 to |lowered|
      invariant (built, lastDash) == Dashes(lowered[..i])
    {
      assert lowered[..i + 1][..i] == lowered[..i];
      var c := lowered[i];
      if IsLabelChar(c) {
        built := built + [c];
        lastDash := false;
        continue;
      }
      if !lastDash {
        built := built + "-";
        lastDash := true;
      }
    }
    assert lowered[..|lowered|] == lowered;
    var normalized := Trimmed(built);
    if normalized == "" {
      normalized := hash(original);
    }
    if ValidLabel(normalized) {
      return normalized;
    }
    return Shortened(hash, original, normalized);
  }

  // -------------------------------------------------------------------- validity

  lemma {:induction false} DashesAreLabelChars(s: string)
    ensures AllLabelChars(Dashes(s).0)
  {
    if s != "" {
      DashesAreLabelChars(s[..|s| - 1]);
    }
  }

  lemma {:induction false} TrimLeftCuts(s: string)
    ensures TrimLeft(s) == "" || (|TrimLeft(s)| <= |s| && TrimLeft(s) == s[|s| - |TrimLeft(s)|..])
    ensures TrimLeft(s) != "" ==> IsEdge(TrimLeft(s)[0])
  {
    if s != "" && !IsEdge(s[0]) {
      TrimLeftCuts(s[1..]);
    }
  }

  lemma {:induction false} TrimRightCuts(s: string)
    ensures TrimRight(s) <= s
    ensures TrimRight(s) != "" ==> IsEdge(TrimRight(s)[|TrimRight(s)| - 1])
    ensures s != "" && IsEdge(s[0]) ==> TrimRight(s) != ""
  {
    if s != "" && !IsEdge(s[|s| - 1]) {
      TrimRightCuts(s[..|s| - 1]);
    }
  }

  /** Trimming leaves nothing, or a piece with proper edges. */
  lemma TrimmedHasEdges(s: string)
    requires AllLabelChars(s)
    ensures |Trimmed(s)| <= |s| && AllLabelChars(Trimmed(s))
    ensures Trimmed(s) != "" ==> IsEdge(Trimmed(s)[0]) && IsEdge(Trimmed(s)[|Trimmed(s)| - 1])
    ensures s != "" && IsEdge(s[0]) ==> Trimmed(s) != ""
  {
    hide IsEdge, IsLabelChar;
    TrimLeftCuts(s);
    TrimRightCuts(TrimLeft(s));
  }

  lemma ShortenedIsValid(hash: Hash, original: string, normalized: string)
    requires HashesAreHex(hash) && AllLabelChars(normalized) && normalized != "" && IsEdge(normalized[0])
    ensures ValidLabel(Shortened(hash, original, normalized))
    ensures |Shortened(hash, original, normalized)| >= HASH_LENGTH
    ensures var r := Shortened(hash, original, normalized); r[|r| - HASH_LENGTH..] == hash(original)
  {
    hide Trimmed, IsEdge;
    assert |hash(original)| == HASH_LENGTH;
    var limit := MAX_LABEL - HASH_LENGTH - 1;
    TrimmedHasEdges(if limit < |normalized| then normalized[..limit] else normalized);
  }

  /** Every text becomes a valid label, and only blank text becomes the empty one. */
  lemma LabelValueIsValid(text: Text, hash: Hash, value: string)
    requires HashesAreHex(hash)
    ensures if text.trim(value) == "" then LabelValue(text, hash, value) == ""
            else ValidLabel(LabelValue(text, hash, value))
  {
    hide Trimmed, Shortened, IsEdge, IsLabelChar;
    var original := text.trim(value);
    var built := Dashes(text.lower(original)).0;
    DashesAreLabelChars(text.lower(original));
    TrimmedHasEdges(built);
    assert |hash(original)| == HASH_LENGTH;
    EdgesAreLabelChars(hash(original));
    var normalized := if Trimmed(built) == "" then hash(original) else Trimmed(built);
    assert normalized != "" && IsEdge(normalized[0]) && AllLabelChars(normalized);
    ShortenedIsValid(hash, original, normalized);
  }

  lemma EdgesAreLabelChars(s: string)
    requires forall i | 0 <= i < |s| :: IsEdge(s[i])
    ensures AllLabelChars(s)
  {
  }

  // -------------------------------------------------------------------- fixpoint

  lemma {:induction false} DashesKeepLabels(s: string)
    requires AllLabelChars(s)
    ensures Dashes(s) == (s, false)
  {
    if s != "" {
      DashesKeepLabels(s[..|s| - 1]);
      assert s == s[..|s| - 1] + [s[|s| - 1]];
    }
  }

  /** Valid labels stay as they are, so making a label of a label changes nothing. */
  lemma LabelValueIsFixpoint(text: Text, hash: Hash, value: string)
    requires HashesAreHex(hash) && KeepsLabels(text) && text.trim("") == ""
    ensures LabelValue(text, hash, LabelValue(text, hash, value)) == LabelValue(text, hash, value)
  {
    var result := LabelValue(text, hash, value);
    LabelValueIsValid(text, hash, value);
    if result != "" {
      DashesKeepLabels(result);
      assert Trimmed(result) == result;
    }
  }

  /** The text a label is made of before it is cut. */
  function Normalized(text: Text, value: string): string {
    Trimmed(Dashes(text.lower(text.trim(value))).0)
  }

  /** Two texts too long for a label share one only if they share a hash. */
  lemma LongLabelsCarryTheHash(text: Text, hash: Hash, a: string, b: string)
    requires HashesAreHex(hash) && text.trim(a) != "" && text.trim(b) != ""
    requires |Normalized(text, a)| > MAX_LABEL && |Normalized(text, b)| > MAX_LABEL
    requires LabelValue(text, hash, a) == LabelValue(text, hash, b)
    ensures hash(text.trim(a)) == hash(text.trim(b))
  {
    LongIsShortened(text, hash, a);
    LongIsShortened(text, hash, b);
  }

  lemma LongIsShortened(text: Text, hash: Hash, value: string)
    requires HashesAreHex(hash) && text.trim(value) != "" && |Normalized(text, value)| > MAX_LABEL
    ensures var r := LabelValue(text, hash, value);
            |r| >= HASH_LENGTH && r[|r| - HASH_LENGTH..] == hash(text.trim(value))
  {
    hide Trimmed, Shortened, IsEdge, IsLabelChar;
    DashesAreLabelChars(text.lower(text.trim(value)));
    TrimmedHasEdges(Dashes(text.lower(text.trim(value))).0);
    ShortenedIsValid(hash, text.trim(value), Normalized(text, value));
  }
}
