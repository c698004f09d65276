/**
 * The playlist-text part of `estimateHlsSize` in the stream router: it counts
 * URI lines (section 4.1 of RFC 8216), reads the first EXT-X-TARGETDURATION
 * (section 4.3.3.1) and the largest BANDWIDTH of the EXT-X-STREAM-INF tags
 * (section 4.3.4.2) with the program's own regular expressions, and estimates
 * segments x duration x bandwidth / 8 bytes.
 */
module HlsEstimate {
  import opened Wrappers
  import opened Text

  const DefaultSegmentDuration: nat := 10
  const DefaultBandwidth: nat := 5000000
  /** 100 x 1024 x 1024 bytes, returned when the playlist cannot be fetched. */
  const FallbackEstimate: real := 104857600.0

  const TargetDurationTag: string := "#EXT-X-TARGETDURATION:"
  const StreamInfTag: string := "#EXT-X-STREAM-INF:"
  const BandwidthKey: string := "BANDWIDTH="

  // ---------------------------------------------------------------------------
  // Segments: lines that are non-blank after trim and whose untrimmed text does
  // not start with '#'.

  predicate IsSegmentLine(line: string) {
    Trim(line) != [] && !StartsWith(line, "#")
  }

  function CountSegments(lines: seq<string>): (n: nat)
    ensures n <= |lines|
  {
    if lines == [] then 0
    else (if IsSegmentLine(lines[0]) then 1 else 0) + CountSegments(lines[1..])
  }

  /** `content.split('\n').filter(...).length`. */
  function SegmentCount(content: string): nat {
    CountSegments(Split(content, '\n'))
  }

  lemma {:induction false} CountSegmentsAppend(a: seq<string>, b: seq<string>)
    ensures CountSegments(a + b) == CountSegments(a) + CountSegments(b)
  {
    if a == [] {
      assert a + b == b;
    } else {
      var w := if IsSegmentLine(a[0]) then 1 else 0;
      assert (a + b)[0] == a[0] && (a + b)[1..] == a[1..] + b;
      assert CountSegments(a + b) == w + CountSegments(a[1..] + b);
      CountSegmentsAppend(a[1..], b);
    }
  }

  /** A single line counts once exactly when it is a segment line. */
  lemma SegmentCountOfLine(line: string)
    requires '\n' !in line
    ensures SegmentCount(line) == if IsSegmentLine(line) then 1 else 0
  {
    SplitWithoutSeparator(line, '\n');
  }

  /** The count is additive over lines; with SegmentCountOfLine it fixes the count of every text. */
  lemma SegmentCountConcat(a: string, b: string)
    ensures SegmentCount(a + "\n" + b) == SegmentCount(a) + SegmentCount(b)
  {
    SplitAtSeparator(a, b, '\n');
    CountSegmentsAppend(Split(a, '\n'), Split(b, '\n'));
  }

  /** A line indented before its '#' is not a comment: the prefix test is on the untrimmed text. */
  lemma IndentedTagCounts(line: string)
    requires |line| >= 2 && line[0] == ' ' && line[1] == '#'
    ensures IsSegmentLine(line)
  {
    assert line[..1] != "#";
    assert !IsJsWhitespace(line[1]);
  }

  // ---------------------------------------------------------------------------
  // Target duration: the first match of /#EXT-X-TARGETDURATION:(\d+)/.

  predicate DurationMatchAt(s: string, p: int) {
    OccursAt(s, p, TargetDurationTag) && p + |TargetDurationTag| < |s| && IsDigit(s[p + |TargetDurationTag|])
  }

  /** The leftmost position at or after `from` where the pattern matches. */
  function FirstDurationMatch(s: string, from: nat): (r: Option<nat>)
    requires from <= |s|
    ensures r.Some? ==> from <= r.value < |s| && DurationMatchAt(s, r.value)
    ensures r.Some? ==> forall q :: from <= q < r.value ==> !DurationMatchAt(s, q)
    ensures r.None? ==> forall q :: from <= q < |s| ==> !DurationMatchAt(s, q)
    decreases |s| - from
  {
    if from == |s| then None
    else if DurationMatchAt(s, from) then Some(from)
    else FirstDurationMatch(s, from + 1)
  }

  /** `parseInt` of the digits after the first matching tag, else 10. */
  function SegmentDuration(content: string): nat {
    match FirstDurationMatch(content, 0)
    case None => DefaultSegmentDuration
    case Some(p) => DecimalValue(DigitRun(content, p + |TargetDurationTag|))
  }

  /** A position where the pattern matches, with no match before it, is the one the scan finds. */
  lemma LeftmostDurationMatch(content: string, p: nat)
    requires p < |content| && DurationMatchAt(content, p)
    requires forall q :: 0 <= q < p ==> !DurationMatchAt(content, q)
    ensures FirstDurationMatch(content, 0) == Some(p)
  {
  }

  /** Without a tag followed by a digit the duration is 10; with one, it is the value of the leftmost. */
  lemma SegmentDurationSpec(content: string)
    ensures (forall q :: 0 <= q < |content| ==> !DurationMatchAt(content, q)) ==> SegmentDuration(content) == DefaultSegmentDuration
    ensures forall p ::
              (0 <= p < |content| && DurationMatchAt(content, p) && (forall q :: 0 <= q < p ==> !DurationMatchAt(content, q)))
              ==> SegmentDuration(content) == DecimalValue(DigitRun(content, p + |TargetDurationTag|))
  {
    var r := FirstDurationMatch(content, 0);
    if r.Some? {
      assert DurationMatchAt(content, r.value);
    }
    forall p | 0 <= p < |content| && DurationMatchAt(content, p) && (forall q :: 0 <= q < p ==> !DurationMatchAt(content, q))
      ensures SegmentDuration(content) == DecimalValue(DigitRun(content, p + |TargetDurationTag|))
    {
      LeftmostDurationMatch(content, p);
    }
  }

  // ---------------------------------------------------------------------------
  // Bandwidth: the global matches of /#EXT-X-STREAM-INF:.*BANDWIDTH=(\d+)/g,
  // each re-matched with /BANDWIDTH=(\d+)/.

  /** Where /BANDWIDTH=(\d+)/ can match. */
  predicate BandwidthAt(s: string, q: int) {
    OccursAt(s, q, BandwidthKey) && q + |BandwidthKey| < |s| && IsDigit(s[q + |BandwidthKey|])
  }

  function BandwidthValueAt(s: string, q: nat): nat
    requires BandwidthAt(s, q)
  {
    DecimalValue(DigitRun(s, q + |BandwidthKey|))
  }

  /** No line terminator in `s[i..j]`: the stretch `.*` can cover. */
  predicate SameLine(s: string, i: int, j: int)
    requires 0 <= i <= j <= |s|
  {
    forall k :: i <= k < j ==> !IsLineTerminator(s[k])
  }

  /** A stretch without line terminators from `i` lies before the end of `i`'s line. */
  lemma {:induction false} LineEndBeyond(s: string, i: nat, j: nat)
    requires i <= j <= |s| && SameLine(s, i, j)
    ensures j <= LineEnd(s, i)
    decreases j - i
  {
    if i < j {
      LineEndBeyond(s, i + 1, j);
    }
  }

  /** The first line terminator at or after `i`, or the end of the text. */
  function LineEnd(s: string, i: nat): (e: nat)
    requires i <= |s|
    ensures i <= e <= |s| && SameLine(s, i, e)
    ensures e < |s| ==> IsLineTerminator(s[e])
    decreases |s| - i
  {
    if i == |s| || IsLineTerminator(s[i]) then i else LineEnd(s, i + 1)
  }

  /** The first `BANDWIDTH=<digit>` starting in `[from, end)`. */
  function FirstBandwidth(s: string, from: nat, end: nat): (r: Option<nat>)
    requires from <= end <= |s|
    ensures r.Some? ==> from <= r.value < end && BandwidthAt(s, r.value)
    ensures r.Some? ==> forall q :: from <= q < r.value ==> !BandwidthAt(s, q)
    ensures r.None? ==> forall q :: from <= q < end ==> !BandwidthAt(s, q)
    decreases end - from
  {
    if from == end then None
    else if BandwidthAt(s, from) then Some(from)
    else FirstBandwidth(s, from + 1, end)
  }

  /** The last `BANDWIDTH=<digit>` starting in `[from, end)`: where the greedy `.*` stops. */
  function LastBandwidth(s: string, from: nat, end: nat): (r: Option<nat>)
    requires from <= end <= |s|
    ensures r.Some? ==> from <= r.value < end && BandwidthAt(s, r.value)
    ensures r.Some? ==> forall q :: r.value < q < end ==> !BandwidthAt(s, q)
    ensures r.None? ==> forall q :: from <= q < end ==> !BandwidthAt(s, q)
    decreases end - from
  {
    if from == end then None
    else if BandwidthAt(s, end - 1) then Some(end - 1)
    else LastBandwidth(s, from, end - 1)
  }

  /**
   * One match of the global pattern: where it starts, where the inner pattern
   * finds `BANDWIDTH=`, the value it reads there, and where the match ends.
   */
  datatype StreamInfMatch = StreamInfMatch(start: nat, valueAt: nat, value: nat, end: nat)

  /**
   * The match of the global pattern that starts at `p`, if any: the tag at `p`
   * and a `BANDWIDTH=<digit>` later on the same line. The greedy `.*` runs to
   * the last such occurrence on the line, so the match ends after its digits;
   * the inner pattern reads the first one.
   */
  function MatchStreamInfAt(s: string, p: nat): (r: Option<StreamInfMatch>)
    requires p <= |s|
    ensures r.Some? ==> r.value.start == p && p < r.value.end <= |s|
  {
    if !OccursAt(s, p, StreamInfTag) then None
    else
      var body := p + |StreamInfTag|;
      var lineEnd := LineEnd(s, body);
      match FirstBandwidth(s, body, lineEnd)
      case None => None
      case Some(first) =>
        var last := LastBandwidth(s, first, lineEnd).value;
        var digits := DigitRun(s, last + |BandwidthKey|);
        Some(StreamInfMatch(p, first, BandwidthValueAt(s, first), last + |BandwidthKey| + |digits|))
  }

  /** The global pattern matches at `p` exactly when the tag is there and a `BANDWIDTH=<digit>` follows on the same line. */
  lemma MatchStreamInfAtSpec(s: string, p: nat)
    requires p <= |s|
    ensures MatchStreamInfAt(s, p).Some? <==> (OccursAt(s, p, StreamInfTag)
      && exists q :: p + |StreamInfTag| <= q < |s| && BandwidthAt(s, q) && SameLine(s, p + |StreamInfTag|, q))
  {
    if OccursAt(s, p, StreamInfTag) {
      var body := p + |StreamInfTag|;
      var lineEnd := LineEnd(s, body);
      match FirstBandwidth(s, body, lineEnd)
      case None =>
        forall q | body <= q < |s| && BandwidthAt(s, q) ensures !SameLine(s, body, q) {
          assert !(q < lineEnd);
          assert s[q] == BandwidthKey[0] by { assert s[q..q + |BandwidthKey|] == BandwidthKey; }
          assert lineEnd < q && IsLineTerminator(s[lineEnd]);
        }
      case Some(first) =>
        assert body <= first < |s| && BandwidthAt(s, first) && SameLine(s, body, first);
    }
  }

  /** What a match records: the tag at its start, and its value read at a `BANDWIDTH=<digit>` after the tag on the same line. */
  predicate IsStreamInfMatch(s: string, m: StreamInfMatch) {
    && OccursAt(s, m.start, StreamInfTag)
    && m.start + |StreamInfTag| <= m.valueAt < |s|
    && BandwidthAt(s, m.valueAt)
    && SameLine(s, m.start + |StreamInfTag|, m.valueAt)
    && m.value == BandwidthValueAt(s, m.valueAt)
  }

  lemma MatchSound(s: string, p: nat)
    requires p <= |s| && MatchStreamInfAt(s, p).Some?
    ensures IsStreamInfMatch(s, MatchStreamInfAt(s, p).value)
  {
    var body := p + |StreamInfTag|;
    var lineEnd := LineEnd(s, body);
    var first := FirstBandwidth(s, body, lineEnd).value;
    assert SameLine(s, body, first);
  }

  /** The matches of the global pattern, scanning from `from`. */
  function StreamInfMatches(s: string, from: nat): (r: seq<StreamInfMatch>)
    requires from <= |s|
    decreases |s| - from
  {
    if from == |s| then []
    else match MatchStreamInfAt(s, from)
      case None => StreamInfMatches(s, from + 1)
      case Some(m) => [m] + StreamInfMatches(s, m.end)
  }

  /** The bandwidths the inner pattern reads, one per match, in order. */
  function StreamInfBandwidths(s: string): (r: seq<nat>)
    ensures |r| == |StreamInfMatches(s, 0)|
    ensures forall k :: 0 <= k < |r| ==> r[k] == StreamInfMatches(s, 0)[k].value
  {
    var ms := StreamInfMatches(s, 0);
    seq(|ms|, k requires 0 <= k < |ms| => ms[k].value)
  }

  /** Every match found is a real match. */
  lemma {:induction false} StreamInfMatchesSound(s: string, from: nat)
    requires from <= |s|
    ensures forall k :: 0 <= k < |StreamInfMatches(s, from)| ==> IsStreamInfMatch(s, StreamInfMatches(s, from)[k])
    decreases |s| - from
  {
    if from < |s| {
      var found := MatchStreamInfAt(s, from);
      if found.None? {
        StreamInfMatchesSound(s, from + 1);
      } else {
        var rest := StreamInfMatches(s, found.value.end);
        var r := StreamInfMatches(s, from);
        assert r == [found.value] + rest;
        StreamInfMatchesSound(s, found.value.end);
        MatchSound(s, from);
        forall k | 0 <= k < |r| ensures IsStreamInfMatch(s, r[k]) {
          if k > 0 {
            assert r[k] == rest[k - 1];
          }
        }
      }
    }
  }

  /** The bandwidth read from a stream-inf line: the first `BANDWIDTH=<digit>` after the tag on the tag's line. */
  ghost predicate IsStreamInfBandwidth(s: string, v: nat) {
    exists p, q :: 0 <= p && p + |StreamInfTag| <= q < |s| && OccursAt(s, p, StreamInfTag) && BandwidthAt(s, q)
      && SameLine(s, p + |StreamInfTag|, q) && v == BandwidthValueAt(s, q)
  }

  /** A recorded match's value is a BANDWIDTH attribute on a stream-inf line. */
  lemma MatchValueIsBandwidth(s: string, m: StreamInfMatch)
    requires IsStreamInfMatch(s, m)
    ensures IsStreamInfBandwidth(s, m.value)
  {
    var p, q := m.start, m.valueAt;
    assert 0 <= p && p + |StreamInfTag| <= q < |s| && OccursAt(s, p, StreamInfTag) && BandwidthAt(s, q)
      && SameLine(s, p + |StreamInfTag|, q) && m.value == BandwidthValueAt(s, q);
  }

  /** Every collected value is a BANDWIDTH attribute on a stream-inf line. */
  lemma StreamInfBandwidthsSound(s: string)
    ensures forall k :: 0 <= k < |StreamInfBandwidths(s)| ==> IsStreamInfBandwidth(s, StreamInfBandwidths(s)[k])
  {
    var r := StreamInfBandwidths(s);
    var ms := StreamInfMatches(s, 0);
    StreamInfMatchesSound(s, 0);
    forall k | 0 <= k < |r| ensures IsStreamInfBandwidth(s, r[k]) {
      MatchValueIsBandwidth(s, ms[k]);
    }
  }

  /** A stretch where the global pattern matches nowhere yields no matches. */
  lemma {:induction false} NoMatchNoScan(s: string, from: nat)
    requires from <= |s|
    requires forall p :: from <= p < |s| ==> MatchStreamInfAt(s, p).None?
    ensures StreamInfMatches(s, from) == []
    decreases |s| - from
  {
    if from < |s| {
      NoMatchNoScan(s, from + 1);
    }
  }

  /** The scan finds the first position where the global pattern matches, and resumes after that match. */
  lemma {:induction false} StreamInfMatchesComplete(s: string, from: nat, p: nat)
    requires from <= p < |s|
    requires MatchStreamInfAt(s, p).Some?
    requires forall q :: from <= q < p ==> MatchStreamInfAt(s, q).None?
    ensures StreamInfMatches(s, from) == [MatchStreamInfAt(s, p).value] + StreamInfMatches(s, MatchStreamInfAt(s, p).value.end)
    decreases p - from
  {
    if from < p {
      assert MatchStreamInfAt(s, from).None?;
      assert StreamInfMatches(s, from) == StreamInfMatches(s, from + 1);
      StreamInfMatchesComplete(s, from + 1, p);
    }
  }

  /** A text without the stream-inf tag yields no bandwidths. */
  lemma NoStreamInfNoBandwidths(s: string)
    requires forall p :: 0 <= p < |s| ==> !OccursAt(s, p, StreamInfTag)
    ensures StreamInfBandwidths(s) == []
  {
    NoMatchNoScan(s, 0);
  }

  /** With the tag at `p` and the line's first `BANDWIDTH=<digit>` at `b`, the match at `p` reads the value at `b`. */
  lemma MatchReadsFirstBandwidth(s: string, p: nat, b: nat)
    requires p + |StreamInfTag| <= b < |s|
    requires OccursAt(s, p, StreamInfTag)
    requires BandwidthAt(s, b) && SameLine(s, p + |StreamInfTag|, b)
    requires forall c :: p + |StreamInfTag| <= c < b ==> !BandwidthAt(s, c)
    ensures MatchStreamInfAt(s, p).Some?
    ensures MatchStreamInfAt(s, p).value.value == BandwidthValueAt(s, b)
  {
    var body := p + |StreamInfTag|;
    assert s[b] == BandwidthKey[0] by { assert s[b..b + |BandwidthKey|] == BandwidthKey; }
    assert SameLine(s, body, b + 1);
    LineEndBeyond(s, body, b + 1);
    assert FirstBandwidth(s, body, LineEnd(s, body)) == Some(b);
  }

  /**
   * A playlist with one stream-inf tag, whose line holds a `BANDWIDTH=<digit>`
   * first at `b`, yields exactly that bandwidth, which is then the maximum.
   */
  lemma OneStreamInfLine(s: string, p: nat, b: nat)
    requires p + |StreamInfTag| <= b < |s|
    requires OccursAt(s, p, StreamInfTag)
    requires forall q :: 0 <= q < |s| && q != p ==> !OccursAt(s, q, StreamInfTag)
    requires BandwidthAt(s, b) && SameLine(s, p + |StreamInfTag|, b)
    requires forall c :: p + |StreamInfTag| <= c < b ==> !BandwidthAt(s, c)
    ensures StreamInfBandwidths(s) == [BandwidthValueAt(s, b)]
    ensures MaxBandwidth(s) == BandwidthValueAt(s, b)
  {
    MatchReadsFirstBandwidth(s, p, b);
    var m := MatchStreamInfAt(s, p).value;
    forall q | 0 <= q < |s| && q != p ensures MatchStreamInfAt(s, q).None? {
      assert !OccursAt(s, q, StreamInfTag);
    }
    StreamInfMatchesComplete(s, 0, p);
    NoMatchNoScan(s, m.end);
    assert StreamInfMatches(s, 0) == [m];
  }

  const AverageBandwidthKey: string := "AVERAGE-BANDWIDTH="

  /** `AVERAGE-BANDWIDTH=` holds no line terminator, ends in `BANDWIDTH=`, and has no `BANDWIDTH=` starting earlier. */
  lemma AverageAttribute(s: string, i: nat)
    requires OccursAt(s, i, AverageBandwidthKey)
    ensures SameLine(s, i, i + 18)
    ensures OccursAt(s, i + 8, BandwidthKey)
    ensures forall q :: i <= q < i + 8 ==> !OccursAt(s, q, BandwidthKey)
  {
    forall k | i <= k < i + 18 ensures s[k] == AverageBandwidthKey[k - i] {
      assert s[i..i + 18][k - i] == s[k];
    }
    assert s[i + 8..i + 18] == BandwidthKey;
    forall q | i <= q < i + 8 ensures !OccursAt(s, q, BandwidthKey) {
      assert s[q] != BandwidthKey[0];
      if q + 10 <= |s| {
        assert s[q..q + 10][0] == s[q];
      }
    }
  }

  /**
   * When the attribute list starts with AVERAGE-BANDWIDTH, the inner pattern
   * finds `BANDWIDTH=` inside that name first, so the average is read, not the peak.
   */
  lemma AverageBandwidthWins(s: string, p: nat)
    requires OccursAt(s, p, StreamInfTag)
    requires OccursAt(s, p + |StreamInfTag|, AverageBandwidthKey)
    requires p + 36 < |s| && IsDigit(s[p + 36])
    ensures BandwidthAt(s, p + 26)
    ensures MatchStreamInfAt(s, p).Some?
    ensures MatchStreamInfAt(s, p).value.value == BandwidthValueAt(s, p + 26)
  {
    var body := p + |StreamInfTag|;
    AverageAttribute(s, body);
    assert BandwidthAt(s, body + 8);
    LineEndBeyond(s, body, body + 18);
    var lineEnd := LineEnd(s, body);
    assert FirstBandwidth(s, body, lineEnd) == Some(body + 8);
  }

  // ---------------------------------------------------------------------------
  // Maximum and estimate.

  function SeqMax(xs: seq<nat>): (m: nat)
    requires xs != []
    ensures m in xs
    ensures forall k :: 0 <= k < |xs| ==> xs[k] <= m
  {
    if |xs| == 1 then xs[0]
    else
      var rest := SeqMax(xs[1..]);
      if xs[0] >= rest then xs[0] else rest
  }

  /** `Math.max(...bandwidths)` over the matches, or 5,000,000 when there are none. */
  function MaxBandwidth(content: string): (bw: nat)
    ensures StreamInfBandwidths(content) == [] ==> bw == DefaultBandwidth
    ensures StreamInfBandwidths(content) != [] ==> bw in StreamInfBandwidths(content)
    ensures forall v :: v in StreamInfBandwidths(content) ==> v <= bw
  {
    var values := StreamInfBandwidths(content);
    if values == [] then DefaultBandwidth else SeqMax(values)
  }

  /** The estimate in bits: segments x duration x bandwidth. */
  function EstimatedBits(content: string): nat {
    Product(SegmentCount(content), SegmentDuration(content), MaxBandwidth(content))
  }

  function Product(segments: nat, duration: nat, bandwidth: nat): nat {
    segments * duration * bandwidth
  }

  /**
   * `estimateHlsSize`: `fetched` is the response text, or None when the fetch or
   * reading the body threw. The HTTP status is not looked at.
   */
  function EstimateHlsSize(fetched: Option<string>): (bytes: real)
    ensures bytes >= 0.0
    ensures fetched.None? ==> bytes == FallbackEstimate
    ensures fetched.Some? ==> 8.0 * bytes == Product(SegmentCount(fetched.value), SegmentDuration(fetched.value), MaxBandwidth(fetched.value)) as real
  {
    match fetched
    case None => FallbackEstimate
    case Some(content) => EstimatedBits(content) as real / 8.0
  }

  /** A playlist with no segment line is estimated at zero bytes, whatever its tags say. */
  lemma NoSegmentsNoBytes(content: string)
    requires forall k :: 0 <= k < |Split(content, '\n')| ==> !IsSegmentLine(Split(content, '\n')[k])
    ensures EstimateHlsSize(Some(content)) == 0.0
  {
    var lines := Split(content, '\n');
    NoSegmentLinesCountZero(lines);
    assert SegmentCount(content) == 0;
    assert EstimatedBits(content) == 0;
  }

  lemma {:induction false} NoSegmentLinesCountZero(lines: seq<string>)
    requires forall k :: 0 <= k < |lines| ==> !IsSegmentLine(lines[k])
    ensures CountSegments(lines) == 0
  {
    if lines != [] {
      NoSegmentLinesCountZero(lines[1..]);
    }
  }
}
