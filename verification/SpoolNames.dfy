/** How pending chunks and the temporary files of an interrupted write are named,
    and how a restart tells them apart (`pendingPath`, `validPendingName`,
    `recognizedAtomicTemp`, `spoolFiles`). */
module SpoolNames {
  import opened StableOrder
  import opened Wrappers

  const TEMP_MARK := ".tmp-"
  const JSON_SUFFIX := ".json"
  const DIGEST_LENGTH := 64
  const SEQUENCE_WIDTH := 20
  const MAX_UINT64 := 0xFFFF_FFFF_FFFF_FFFF

  predicate IsDigit(c: char) { '0' <= c <= '9' }

  /** `hex.DecodeString` also takes capitals. */
  predicate IsHex(c: char) { IsDigit(c) || 'a' <= c <= 'f' || 'A' <= c <= 'F' }

  predicate ValidDigest(s: string) {
    |s| == DIGEST_LENGTH && forall i | 0 <= i < |s| :: IsHex(s[i])
  }

  function DigitOf(n: nat): char
    requires n < 10
  {
    '0' + n as char
  }

  function Decimal(n: nat): string {
    (if n < 10 then [] else Decimal(n / 10)) + [DigitOf(n % 10)]
  }

  function Zeros(k: nat): string {
    seq(k, _ => '0')
  }

  /** `%020d`. */
  function Padded(n: nat): string {
    var d := Decimal(n);
    if |d| < SEQUENCE_WIDTH then Zeros(SEQUENCE_WIDTH - |d|) + d else d
  }

  function PendingName(sequence: nat, digest: string): string {
    Padded(sequence) + "-" + digest + JSON_SUFFIX
  }

  predicate ValidPendingName(name: string) {
    && |name| == SEQUENCE_WIDTH + 1 + DIGEST_LENGTH + |JSON_SUFFIX|
    && name[|name| - |JSON_SUFFIX|..] == JSON_SUFFIX
    && name[SEQUENCE_WIDTH] == '-'
    && (forall i | 0 <= i < SEQUENCE_WIDTH :: IsDigit(name[i]))
    && ValidDigest(name[SEQUENCE_WIDTH + 1..|name| - |JSON_SUFFIX|])
  }

  // --------------------------------------------------------------- sequence numbers

  function Pow10(k: nat): nat {
    if k == 0 then 1 else 10 * Pow10(k - 1)
  }

  function ValueOf(s: string): nat {
    if s == [] then 0
    else 10 * ValueOf(s[..|s|-1]) + if IsDigit(s[|s|-1]) then s[|s|-1] as nat - '0' as nat else 0
  }

  lemma ValueSnoc(s: string, d: nat)
    requires d < 10
    ensures ValueOf(s + [DigitOf(d)]) == 10 * ValueOf(s) + d && IsDigit(DigitOf(d))
  {
    assert (s + [DigitOf(d)])[..|s|] == s;
  }

  lemma {:induction false} DecimalValue(n: nat)
    ensures ValueOf(Decimal(n)) == n
    ensures forall i | 0 <= i < |Decimal(n)| :: IsDigit(Decimal(n)[i])
  {
    hide ValueOf, DigitOf, IsDigit;
    if n < 10 {
      ValueSnoc([], n);
      NoDigits();
    } else {
      DecimalValue(n / 10);
      ValueSnoc(Decimal(n / 10), n % 10);
    }
  }

  lemma NoDigits()
    ensures ValueOf([]) == 0
  {
  }

  lemma {:induction false} DecimalLength(n: nat, k: nat)
    requires k > 0
    ensures |Decimal(n)| <= k <==> n < Pow10(k)
  {
    if n >= 10 && k > 1 {
      DecimalLength(n / 10, k - 1);
    } else if n >= 10 {
      assert |Decimal(n / 10)| >= 1;
    } else {
      PowPositive(k);
    }
  }

  lemma PowPositive(k: nat)
    ensures Pow10(k) >= 1 && (k > 0 ==> Pow10(k) >= 10)
  {
  }

  lemma {:induction false} ZerosAddNothing(k: nat, s: string)
    ensures ValueOf(Zeros(k) + s) == ValueOf(s)
  {
    if s == [] {
      if k > 0 {
        assert (Zeros(k) + s)[..k - 1] == Zeros(k - 1) + [];
        ZerosAddNothing(k - 1, []);
      }
    } else {
      assert (Zeros(k) + s)[..k + |s| - 1] == Zeros(k) + s[..|s|-1];
      ZerosAddNothing(k, s[..|s|-1]);
    }
  }

  lemma PaddedValue(n: nat)
    ensures ValueOf(Padded(n)) == n && |Padded(n)| >= SEQUENCE_WIDTH
    ensures |Padded(n)| == SEQUENCE_WIDTH <==> n < Pow10(SEQUENCE_WIDTH)
    ensures forall i | 0 <= i < |Padded(n)| :: IsDigit(Padded(n)[i])
  {
    DecimalValue(n);
    DecimalLength(n, SEQUENCE_WIDTH);
    if |Decimal(n)| < SEQUENCE_WIDTH {
      ZerosAddNothing(SEQUENCE_WIDTH - |Decimal(n)|, Decimal(n));
    }
  }

  lemma TwentyDigits()
    ensures MAX_UINT64 < Pow10(SEQUENCE_WIDTH)
  {
    assert Pow10(5) == 100000 by {
      assert Pow10(3) == 1000;
    }
    assert Pow10(10) == 1_00000_00000 by {
      assert Pow10(7) == 1_00_00000;
      assert Pow10(9) == 10 * Pow10(8);
    }
    assert Pow10(15) == 1_00000_00000_00000 by {
      assert Pow10(12) == 1_00_00000_00000;
      assert Pow10(14) == 10 * Pow10(13);
    }
    assert Pow10(20) == 1_00000_00000_00000_00000 by {
      assert Pow10(17) == 1_00_00000_00000_00000;
      assert Pow10(19) == 10 * Pow10(18);
    }
  }

  /** The names the collector gives its pending chunks are the ones it accepts:
      for a digest, exactly when the sequence number fits twenty digits, which
      every uint64 does. */
  lemma PendingNamesAreValid(sequence: nat, digest: string)
    requires ValidDigest(digest)
    ensures ValidPendingName(PendingName(sequence, digest)) <==> sequence < Pow10(SEQUENCE_WIDTH)
    ensures sequence <= MAX_UINT64 ==> ValidPendingName(PendingName(sequence, digest))
  {
    PaddedValue(sequence);
    TwentyDigits();
    var name := PendingName(sequence, digest);
    if |Padded(sequence)| == SEQUENCE_WIDTH {
      assert name[..SEQUENCE_WIDTH] == Padded(sequence);
      assert name[SEQUENCE_WIDTH + 1..|name| - |JSON_SUFFIX|] == digest;
      assert name[|name| - |JSON_SUFFIX|..] == JSON_SUFFIX;
      forall i | 0 <= i < SEQUENCE_WIDTH
        ensures IsDigit(name[i])
      {
        assert name[i] == Padded(sequence)[i];
      }
    }
  }

  /** A pending name gives back its sequence number and digest. */
  lemma PendingNameIsInjective(sequence: nat, digest: string, sequence': nat, digest': string)
    requires ValidDigest(digest) && ValidDigest(digest')
    requires PendingName(sequence, digest) == PendingName(sequence', digest')
    ensures sequence == sequence' && digest == digest'
  {
    PaddedValue(sequence);
    PaddedValue(sequence');
    var name := PendingName(sequence, digest);
    var n := |name| - |JSON_SUFFIX| - DIGEST_LENGTH - 1;
    assert name[..n] == Padded(sequence) && name[..n] == Padded(sequence');
    assert name[n + 1..n + 1 + DIGEST_LENGTH] == digest && name[n + 1..n + 1 + DIGEST_LENGTH] == digest';
  }

  // ----------------------------------------------------------------- temporary files

  /** `os.CreateTemp` with pattern `.<target>.tmp-*`: the star becomes digits. */
  function TempName(target: string, random: string): string {
    "." + target + TEMP_MARK + random
  }

  predicate MarkAt(name: string, i: nat) {
    i + |TEMP_MARK| <= |name| && name[i..i + |TEMP_MARK|] == TEMP_MARK
  }

  /** `strings.LastIndex(name, ".tmp-")` among the first `n` positions. */
  function LastMark(name: string, n: nat): (r: Option<nat>)
    requires n <= |name|
    ensures r.Some? ==> r.value < n && MarkAt(name, r.value)
    ensures forall i | (if r.Some? then r.value + 1 else 0) <= i < n :: !MarkAt(name, i)
  {
    if n == 0 then None
    else if MarkAt(name, n - 1) then Some(n - 1)
    else LastMark(name, n - 1)
  }

  /** `recognizedAtomicTemp`: the target of a temporary name, if it is one; the
      flag says whether that target is a pending name. */
  function RecognizedTemp(name: string): (string, bool) {
    if name == [] || name[0] != '.' then ("", false)
    else
      var mark := LastMark(name, |name|);
      if mark.None? || mark.value <= 1 || mark.value + |TEMP_MARK| == |name| then ("", false)
      else (name[1..mark.value], ValidPendingName(name[1..mark.value]))
  }

  /** Every temporary file a durable write can leave behind is recognised and
      attributed to the file it was for. */
  lemma TempsAreRecognized(target: string, random: string)
    requires target != "" && random != "" && forall i | 0 <= i < |random| :: IsDigit(random[i])
    ensures RecognizedTemp(TempName(target, random)) == (target, ValidPendingName(target))
  {
    var name := TempName(target, random);
    var at := 1 + |target|;
    assert name[at..at + |TEMP_MARK|] == TEMP_MARK;
    forall i | at < i < |name|
      ensures !MarkAt(name, i)
    {
      assert i < at + |TEMP_MARK| ==> name[i] == TEMP_MARK[i - at];
      assert i >= at + |TEMP_MARK| ==> name[i] == random[i - at - |TEMP_MARK|];
    }
    var mark := LastMark(name, |name|);
    assert MarkAt(name, at);
    assert mark.Some? && mark.value == at;
    assert name[1..at] == target;
  }

  /** No pending name is taken for a temporary one. */
  lemma PendingNamesAreNoTemps(name: string)
    requires ValidPendingName(name)
    ensures !RecognizedTemp(name).1
  {
    assert IsDigit(name[0]);
  }

  /** One entry of the pending directory. */
  datatype Entry = Entry(name: string, plain: bool)

  /** What the collector itself can leave in the pending directory. */
  ghost predicate OwnEntry(e: Entry) {
    && e.plain
    && (ValidPendingName(e.name) || exists target, random ::
          ValidPendingName(target) && random != "" && (forall i | 0 <= i < |random| :: IsDigit(random[i]))
          && e.name == TempName(target, random))
  }

  ghost predicate Listed(entries: seq<Entry>, name: string) {
    exists e :: e in entries && e.name == name
  }

  ghost predicate DistinctNames(entries: seq<Entry>) {
    forall i, j | 0 <= i < j < |entries| :: entries[i].name != entries[j].name
  }

  ghost predicate Increasing(names: seq<string>) {
    forall i, j | 0 <= i < j < |names| :: Precedes(names[i], names[j])
  }

  /** `spoolFiles` over the directory's entries: refuse what is not a plain
      file, remove interrupted writes, and list the rest in increasing order. */
  method SpoolFiles(entries: seq<Entry>) returns (ok: bool, paths: seq<string>, removed: seq<string>)
    ensures ok <==> forall e | e in entries :: e.plain
    ensures ok ==> (forall name | name in removed :: RecognizedTemp(name).1)
    ensures ok ==> (forall e | e in entries :: if RecognizedTemp(e.name).1 then e.name in removed else e.name in paths)
    ensures ok ==> (forall name | name in paths || name in removed :: Listed(entries, name))
    ensures ok ==> (forall name | name in paths :: !RecognizedTemp(name).1)
    ensures DistinctNames(entries) ==> Increasing(paths)
    ensures (forall e | e in entries :: OwnEntry(e)) ==> ok && forall name | name in paths :: ValidPendingName(name)
  {
    hide Precedes, RecognizedTemp, OwnEntry, ValidPendingName, SortStrings, Listed, DistinctNames;
    removed := [];
    var found: seq<string> := [];
    for i := 0 to |entries|
      invariant forall e | e in entries[..i] :: e.plain
      invariant forall name | name in removed :: RecognizedTemp(name).1
      invariant forall name | name in found :: !RecognizedTemp(name).1
      invariant DistinctNames(entries) ==> forall j, k | 0 <= j < k < |found| :: found[j] != found[k]
      invariant forall e | e in entries[..i] :: if RecognizedTemp(e.name).1 then e.name in removed else e.name in found
      invariant forall name | name in found :: Listed(entries[..i], name)
      invariant forall name | name in removed :: Listed(entries[..i], name)
      invariant (forall e | e in entries :: OwnEntry(e)) ==> forall name | name in found :: ValidPendingName(name)
    {
      var e := entries[i];
      assert entries[..i + 1] == entries[..i] + [e];
      NextName(entries, i);
      OwnEntryClassified(e);
      if !e.plain {
        return false, [], [];
      }
      if RecognizedTemp(e.name).1 {
        removed := removed + [e.name];
      } else {
        found := found + [e.name];
      }
    }
    assert entries[..|entries|] == entries;
    SortStringsKeeps(found);
    if DistinctNames(entries) {
      SortedDistinct(found);
    }
    return true, SortStrings(found), removed;
  }

  lemma NextName(entries: seq<Entry>, i: nat)
    requires i < |entries|
    ensures Listed(entries[..i + 1], entries[i].name)
    ensures forall name | Listed(entries[..i], name) :: Listed(entries[..i + 1], name)
    ensures DistinctNames(entries) ==> !Listed(entries[..i], entries[i].name)
  {
    var front, last := entries[..i], entries[i];
    assert entries[..i + 1] == front + [last];
    forall name | Listed(front, name) || name == last.name ensures Listed(front + [last], name) {
      if Listed(front, name) {
        var e :| e in front && e.name == name;
        assert e in front + [last];
      } else {
        assert last in front + [last];
      }
    }
  }

  lemma OwnEntryClassified(e: Entry)
    ensures OwnEntry(e) ==> e.plain && (RecognizedTemp(e.name).1 || ValidPendingName(e.name))
  {
    if OwnEntry(e) && !ValidPendingName(e.name) {
      var target, random :| ValidPendingName(target) && random != ""
        && (forall i | 0 <= i < |random| :: IsDigit(random[i])) && e.name == TempName(target, random);
      TempsAreRecognized(target, random);
    }
  }
}
