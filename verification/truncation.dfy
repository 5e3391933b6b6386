/** Bounding text to a byte budget without breaking a character
    (src/revanent/context/selection.py, src/revanent/commands/local.py). */
module Truncation {
  import opened Domain
  import opened Utf8

  /** "\n[CONTEXT TRUNCATED]\n" */
  const MARKER: Text := [
    10, 91, 67, 79, 78, 84, 69, 88, 84, 32, 84, 82, 85, 78, 67, 65, 84, 69, 68, 93, 10]

  /** "\n[revanent: redacted artifact byte limit reached]" */
  const LIMIT_NOTICE: Text := NOTICE_0 + NOTICE_1 + NOTICE_2 + NOTICE_3
  const NOTICE_0: Text := [10, 91, 114, 101, 118, 97, 110, 101, 110, 116, 58, 32]
  const NOTICE_1: Text := [114, 101, 100, 97, 99, 116, 101, 100, 32, 97, 114, 116]
  const NOTICE_2: Text := [105, 102, 97, 99, 116, 32, 98, 121, 116, 101, 32, 108]
  const NOTICE_3: Text := [105, 109, 105, 116, 32, 114, 101, 97, 99, 104, 101, 100, 93]

  ghost predicate Ascii(t: Text) {
    forall i :: 0 <= i < |t| ==> t[i] < 0x80
  }

  lemma {:induction false} AsciiBytes(t: Text)
    requires Ascii(t)
    ensures |Encode(t)| == |t|
    ensures forall n :: 0 <= n <= |t| ==> Encode(t)[..n] == Encode(t[..n])
  {
    if t != [] {
      AsciiBytes(t[1..]);
      forall n | 0 <= n <= |t| ensures Encode(t)[..n] == Encode(t[..n]) {
        if n > 0 {
          assert t[..n][1..] == t[1..][..n - 1];
          assert Encode(t)[..n] == EncodePoint(t[0]) + Encode(t[1..])[..n - 1];
        }
      }
    }
  }

  // ---- Context items --------------------------------------------------------------------------

  function HeadBytes(maximum: nat): nat
    requires 21 <= maximum
  {
    (maximum - 21) * 2 / 3
  }

  function TailBytes(maximum: nat): nat
    requires 21 <= maximum
  {
    maximum - 21 - HeadBytes(maximum)
  }

  /** The longest prefix that fits into `n` bytes; it is at most three bytes short. */
  ghost predicate LongestPrefix(value: Text, n: nat, i: nat) {
    && i <= |value| && n - 3 <= |Encode(value[..i])| <= n
    && (i < |value| ==> n < |Encode(value[..i])| + Width(value[i]))
  }

  /** The longest suffix that fits into `n` bytes; it is at most three bytes short. */
  ghost predicate LongestSuffix(value: Text, n: nat, k: nat) {
    && k <= |value| && n - 3 <= |Encode(value[k..])| <= n
    && (k > 0 ==> n < |Encode(value[k - 1..])|)
  }

  /** What truncation keeps on either side of the marker. */
  ghost predicate Keeps(value: Text, maximum: nat, i: nat, k: nat)
    requires 21 <= maximum
  {
    i <= k && LongestPrefix(value, HeadBytes(maximum), i) && LongestSuffix(value, TailBytes(maximum), k)
  }

  lemma MarkerBytes()
    ensures Ascii(MARKER) && |MARKER| == 21 && |Encode(MARKER)| == 21
  {
    AsciiBytes(MARKER);
  }

  lemma AroundBytes(head: Text, marker: Text, tail: Text)
    ensures |Encode(head + marker + tail)| == |Encode(head)| + |Encode(marker)| + |Encode(tail)|
  {
    EncodeConcat(head + marker, tail);
    EncodeConcat(head, marker);
  }

  function KeptPrefix(value: Text, maximum: nat): (i: nat)
    requires 21 <= maximum
    ensures i <= |value|
  {
    FittingPrefix(value, HeadBytes(maximum))
  }

  function KeptSuffix(value: Text, maximum: nat): (k: nat)
    requires 21 <= maximum < |Encode(value)|
    ensures k <= |value|
  {
    FirstBehind(value, |Encode(value)| - TailBytes(maximum))
  }

  lemma PrefixIsLongest(value: Text, n: nat)
    requires n <= |Encode(value)|
    ensures LongestPrefix(value, n, FittingPrefix(value, n))
  {
    CutKeepsPrefix(value, n);
  }

  lemma SuffixIsLongest(value: Text, n: nat)
    requires n <= |Encode(value)|
    ensures LongestSuffix(value, n, FirstBehind(value, |Encode(value)| - n))
  {
    CutKeepsSuffix(value, |Encode(value)| - n);
  }

  lemma PartsAreKept(value: Text, maximum: nat)
    requires 21 <= maximum < |Encode(value)|
    ensures Keeps(value, maximum, KeptPrefix(value, maximum), KeptSuffix(value, maximum))
  {
    BytesAroundMarker(maximum);
    PrefixIsLongest(value, HeadBytes(maximum));
    SuffixIsLongest(value, TailBytes(maximum));
    PartsDoNotOverlap(value, maximum);
  }

  lemma BytesAroundMarker(maximum: nat)
    requires 21 <= maximum
    ensures HeadBytes(maximum) + TailBytes(maximum) == maximum - 21
  {
  }

  lemma PartsDoNotOverlap(value: Text, maximum: nat)
    requires 21 <= maximum < |Encode(value)|
    ensures KeptPrefix(value, maximum) <= KeptSuffix(value, maximum)
  {
    BytesAroundMarker(maximum);
    CutsDoNotOverlap(value, HeadBytes(maximum), |Encode(value)| - TailBytes(maximum));
  }

  lemma HeadIsPrefix(value: Text, maximum: nat)
    requires 21 <= maximum < |Encode(value)|
    ensures DecodeIgnore(Encode(value)[..HeadBytes(maximum)]) == value[..KeptPrefix(value, maximum)]
  {
    CutKeepsPrefix(value, HeadBytes(maximum));
  }

  lemma TailIsSuffix(value: Text, maximum: nat)
    requires 21 <= maximum < |Encode(value)|
    ensures DecodeIgnore(Encode(value)[|Encode(value)| - TailBytes(maximum)..]) == value[KeptSuffix(value, maximum)..]
  {
    CutKeepsSuffix(value, |Encode(value)| - TailBytes(maximum));
  }

  /** The parts around the marker fit at once. */
  lemma PartsFit(value: Text, marker: Text, maximum: nat)
    requires |Encode(marker)| == 21 <= maximum < |Encode(value)|
    ensures var parts := value[..KeptPrefix(value, maximum)] + marker + value[KeptSuffix(value, maximum)..];
            maximum - 6 <= |Encode(parts)| <= maximum
  {
    PartsAreKept(value, maximum);
    AroundBytes(value[..KeptPrefix(value, maximum)], marker, value[KeptSuffix(value, maximum)..]);
  }

  lemma HeadFits(value: Text, marker: Text, maximum: nat)
    requires |Encode(marker)| == 21 <= maximum < |Encode(value)|
    ensures |Encode(value[..KeptPrefix(value, maximum)] + marker)| <= maximum
  {
    PartsAreKept(value, maximum);
    EncodeConcat(value[..KeptPrefix(value, maximum)], marker);
  }

  ghost predicate Truncated(value: Text, maximum: nat, retained: Text, i: nat, k: nat)
    requires 21 <= maximum
  {
    Keeps(value, maximum, i, k) && retained == value[..i] + MARKER + value[k..]
  }

  /** _truncate_utf8. The result is a prefix, the marker and a suffix of the value, split at
      characters, at most three bytes short of the budget at each cut; the trimming loop never
      trims anything. */
  method TruncateUtf8(value: Text, maximum: nat)
    returns (retained: Text, ghost i: nat, ghost k: nat, ghost trimmed: bool)
    requires 32 <= maximum < |Encode(value)|
    ensures Truncated(value, maximum, retained, i, k)
    ensures maximum - 6 <= |Encode(retained)| <= maximum && !trimmed
    ensures DecodeIgnore(Encode(retained)) == retained
  {
    MarkerBytes();
    retained, i, k, trimmed := TruncateAround(value, MARKER, maximum);
    DecodeEncode(retained);
  }

  /** The trimming loop: it drops characters of the tail until the whole fits. */
  method Trim(head: Text, marker: Text, whole: Text, maximum: nat) returns (retained: Text, ghost trimmed: bool)
    requires |Encode(head + marker)| <= maximum
    ensures trimmed <==> |Encode(head + marker + whole)| > maximum
    ensures !trimmed ==> retained == head + marker + whole
    ensures |Encode(retained)| <= maximum
  {
    var tail := whole;
    retained := head + marker + tail;
    trimmed := false;
    while |Encode(retained)| > maximum
      invariant retained == head + marker + tail
      invariant !trimmed ==> tail == whole
      invariant trimmed ==> |Encode(head + marker + whole)| > maximum
      decreases |tail|
    {
      assert tail == [] ==> head + marker + tail == head + marker;
      tail := tail[1..];
      retained := head + marker + tail;
      trimmed := true;
    }
  }

  method TruncateAround(value: Text, marker: Text, maximum: nat)
    returns (retained: Text, ghost i: nat, ghost k: nat, ghost trimmed: bool)
    requires |Encode(marker)| == 21 <= maximum < |Encode(value)|
    ensures Keeps(value, maximum, i, k) && retained == value[..i] + marker + value[k..]
    ensures maximum - 6 <= |Encode(retained)| <= maximum && !trimmed
  {
    var available := maximum - |Encode(marker)|;
    var headSize := available * 2 / 3;
    var tailSize := available - headSize;
    var encoded := Encode(value);
    var head := DecodeIgnore(encoded[..headSize]);
    var tail := if tailSize > 0 then DecodeIgnore(encoded[|encoded| - tailSize..]) else [];
    i, k := KeptPrefix(value, maximum), KeptSuffix(value, maximum);
    assert headSize == HeadBytes(maximum) && tailSize == TailBytes(maximum);
    HeadIsPrefix(value, maximum);
    TailIsSuffix(value, maximum);
    HeadFits(value, marker, maximum);
    PartsFit(value, marker, maximum);
    PartsAreKept(value, maximum);
    assert head == value[..i] && tail == value[k..];
    retained, trimmed := Trim(head, marker, tail, maximum);
  }

  // ---- Captured command output ----------------------------------------------------------------

  /** _bounded_text: the longest prefix that fits. */
  method BoundedText(value: Text, limit: nat) returns (text: Text, cut: bool)
    ensures cut <==> |Encode(value)| > limit
    ensures !cut ==> text == value
    ensures cut ==> |text| < |value| && text == value[..|text|] && |Encode(text)| <= limit
                    && limit < |Encode(text)| + Width(value[|text|])
  {
    var encoded := Encode(value);
    if |encoded| <= limit {
      return value, false;
    }
    text, cut := DecodeIgnore(encoded[..limit]), true;
    CutKeepsPrefix(value, limit);
    assert value[..|value|] == value;
  }

  lemma AsciiConcat(a: Text, b: Text)
    requires Ascii(a) && Ascii(b)
    ensures Ascii(a + b)
  {
  }

  lemma NoticeBytes()
    ensures Ascii(LIMIT_NOTICE) && |LIMIT_NOTICE| == 49 && |Encode(LIMIT_NOTICE)| == 49
  {
    assert Ascii(NOTICE_0) && |NOTICE_0| == 12;
    assert Ascii(NOTICE_1) && |NOTICE_1| == 12;
    assert Ascii(NOTICE_2) && |NOTICE_2| == 12;
    assert Ascii(NOTICE_3) && |NOTICE_3| == 13;
    AsciiConcat(NOTICE_0, NOTICE_1);
    AsciiConcat(NOTICE_0 + NOTICE_1, NOTICE_2);
    AsciiConcat(NOTICE_0 + NOTICE_1 + NOTICE_2, NOTICE_3);
    AsciiBytes(LIMIT_NOTICE);
  }

  /** The bytes are the encoding of a text. */
  ghost predicate IsText(bs: Bytes) {
    Encode(DecodeIgnore(bs)) == bs
  }

  lemma EncodedIsText(t: Text)
    ensures IsText(Encode(t))
  {
    DecodeEncode(t);
  }

  /** _bounded_utf8: within the limit, valid UTF-8, and shorter than the value exactly when the
      value did not fit. */
  method BoundedUtf8(value: Text, limit: nat) returns (data: Bytes, ghost text: Text)
    ensures data == Encode(text) && IsText(data)
    ensures |Encode(value)| <= limit ==> text == value
    ensures |data| <= limit
    ensures |data| < |Encode(value)| <==> |Encode(value)| > limit
    ensures |Encode(value)| > limit > 49 ==>
              exists k :: 0 <= k <= |value| && text == value[..k] + LIMIT_NOTICE && limit - 3 <= |data|
  {
    var encoded := Encode(value);
    NoticeBytes();
    AsciiBytes(LIMIT_NOTICE);
    if |encoded| <= limit {
      data, text := encoded, value;
    } else if |Encode(LIMIT_NOTICE)| >= limit {
      data, text := Encode(LIMIT_NOTICE)[..limit], LIMIT_NOTICE[..limit];
    } else {
      var prefix := DecodeIgnore(encoded[..limit - |Encode(LIMIT_NOTICE)|]);
      data := Encode(prefix) + Encode(LIMIT_NOTICE);
      CutKeepsPrefix(value, limit - 49);
      text := prefix + LIMIT_NOTICE;
      EncodeConcat(prefix, LIMIT_NOTICE);
      assert prefix == value[..FittingPrefix(value, limit - 49)];
    }
    EncodedIsText(text);
  }

  function Min(a: nat, b: nat): nat {
    if a < b then a else b
  }

  function Prefix(bs: Bytes, limit: nat): Bytes {
    bs[..Min(limit, |bs|)]
  }

  /** _StreamCollector: two bounded buffers over one stream of chunks. */
  class StreamCollector {
    const captureLimit: nat
    const artifactLimit: nat
    var captured: Bytes
    var artifact: Bytes
    var observed: nat
    ghost var seen: Bytes

    ghost predicate Valid()
      reads this
    {
      && observed == |seen|
      && captured == Prefix(seen, captureLimit)
      && artifact == Prefix(seen, artifactLimit)
    }

    constructor (captureLimit: nat, artifactLimit: nat)
      ensures Valid() && seen == []
      ensures this.captureLimit == captureLimit && this.artifactLimit == artifactLimit
    {
      this.captureLimit, this.artifactLimit := captureLimit, artifactLimit;
      captured, artifact, observed, seen := [], [], 0, [];
    }

    /** Whatever the chunking, the buffers hold the first bytes of everything observed. */
    method Add(chunk: Bytes)
      requires Valid()
      modifies this
      ensures Valid() && seen == old(seen) + chunk
    {
      observed := observed + |chunk|;
      var captureRemaining := captureLimit - |captured|;
      if captureRemaining > 0 {
        captured := captured + Prefix(chunk, captureRemaining);
      }
      var artifactRemaining := artifactLimit - |artifact|;
      if artifactRemaining > 0 {
        artifact := artifact + Prefix(chunk, artifactRemaining);
      }
      seen := seen + chunk;
    }
  }

  // ---- Accounting -----------------------------------------------------------------------------

  datatype ArtifactStatus = ArtifactComplete | ArtifactTruncated

  datatype ArtifactReference = ArtifactReference(
    status: ArtifactStatus, observed: nat, sourceRetained: nat, redactedObserved: nat, stored: nat)
  {
    /** The conditions the reference model enforces. */
    predicate Valid() {
      var complete := sourceRetained == observed && stored == redactedObserved;
      && sourceRetained <= observed && stored <= redactedObserved
      && (status == ArtifactComplete <==> complete)
    }
  }

  datatype CapturedOutput = CapturedOutput(
    text: Text, observed: nat, retained: nat, truncated: bool, redactionTruncated: bool,
    artifact: Option<ArtifactReference>)
  {
    predicate Valid() {
      && retained <= observed
      && (truncated <==> retained < observed)
      && (artifact.Some? ==> truncated || redactionTruncated)
    }
  }

  /** The text is the value, or its longest prefix of at most `limit` bytes if it has more. */
  ghost predicate CutTo(value: Text, limit: nat, text: Text, cut: bool) {
    && (cut <==> |Encode(value)| > limit)
    && (!cut ==> text == value)
    && (cut ==> |text| < |value| && text == value[..|text|] && |Encode(text)| <= limit
                && limit < |Encode(text)| + Width(value[|text|]))
  }

  /** What the artifact of a stream should hold. */
  function ArtifactText(seen: Bytes, artifactLimit: nat, redact: (Bytes, bool) -> Text, notice: nat -> Text): Text {
    if |seen| > artifactLimit then redact(seen[..artifactLimit], true) + notice(|seen|) else redact(seen, false)
  }

  /** The stored artifact and its reference: all of it if it fits, and complete only if also all of the
      stream was kept. */
  ghost predicate StoredAs(whole: Text, observed: nat, artifactLimit: nat, byteLimit: nat, a: ArtifactReference,
                           stored: Bytes) {
    && a.observed == observed && a.sourceRetained == Min(artifactLimit, observed)
    && a.redactedObserved == |Encode(whole)| && a.stored == |stored| <= byteLimit && IsText(stored)
    && (|Encode(whole)| <= byteLimit ==> stored == Encode(whole))
    && (|Encode(whole)| > byteLimit > 49 ==>
          exists k :: 0 <= k <= |whole| && stored == Encode(whole[..k] + LIMIT_NOTICE) && byteLimit - 3 <= |stored|)
    && (a.status == ArtifactComplete <==> observed <= artifactLimit && |Encode(whole)| <= byteLimit)
  }

  /** The accounting of _finalize_stream for any redaction: both records are always consistent, and
      the artifact is complete exactly when no observed byte and no redacted byte is missing. */
  method FinalizeStream(collector: StreamCollector, redact: (Bytes, bool) -> Text, notice: nat -> Text,
                        toArtifact: bool, byteLimit: nat, writeFails: bool)
    returns (output: CapturedOutput, failed: bool, ghost stored: Bytes)
    requires collector.Valid()
    ensures output.Valid() && (output.artifact.Some? ==> output.artifact.value.Valid())
    ensures output.observed == |collector.seen| && output.retained == Min(collector.captureLimit, |collector.seen|)
    ensures failed <==> toArtifact && (output.truncated || output.redactionTruncated) && writeFails
    ensures output.artifact.Some? <==> toArtifact && (output.truncated || output.redactionTruncated) && !writeFails
    ensures output.truncated <==> |collector.seen| > collector.captureLimit
    ensures CutTo(redact(Prefix(collector.seen, collector.captureLimit), |collector.seen| > collector.captureLimit),
                  collector.captureLimit, output.text, output.redactionTruncated)
    ensures output.artifact.Some? ==>
              StoredAs(ArtifactText(collector.seen, collector.artifactLimit, redact, notice), |collector.seen|,
                       collector.artifactLimit, byteLimit, output.artifact.value, stored)
  {
    var truncated := collector.observed > collector.captureLimit;
    var text, redactionTruncated := BoundedText(redact(collector.captured, truncated), collector.captureLimit);
    var reference: Option<ArtifactReference> := None;
    failed, stored := false, [];
    if (truncated || redactionTruncated) && toArtifact {
      var artifactTruncated := collector.observed > |collector.artifact|;
      var artifactText := redact(collector.artifact, artifactTruncated);
      if artifactTruncated {
        artifactText := artifactText + notice(collector.observed);
      }
      assert collector.seen[..|collector.seen|] == collector.seen;
      assert artifactText == ArtifactText(collector.seen, collector.artifactLimit, redact, notice);
      var redactedObserved := |Encode(artifactText)|;
      var data, written := BoundedUtf8(artifactText, byteLimit);
      if writeFails {
        failed := true;
      } else {
        stored := data;
        var cut := |data| < redactedObserved;
        reference := Some(ArtifactReference(
          if artifactTruncated || cut then ArtifactTruncated else ArtifactComplete,
          collector.observed, |collector.artifact|, redactedObserved, |data|));
      }
    }
    output := CapturedOutput(text, collector.observed, |collector.captured|, truncated, redactionTruncated, reference);
  }
}
