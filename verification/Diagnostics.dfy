/**
 * Bounded capture of candidate diagnostics.
 *
 * The writer keeps a bounded prefix of the encoded text and a bounded suffix of the text itself, and
 * must still notice every forbidden value, however it is split across writes. `discard` drops both, so
 * the text is observed in segments: the text written between two discards.
 */
module Diagnostics {
  import opened Basics

  newtype CodePoint = x: int | 0 <= x < 0x11_0000

  type Text = seq<CodePoint>

  datatype DiagnosticObservation =
    DiagnosticObservation(bytesObserved: nat, truncated: bool, sensitiveValueObserved: bool)

  // ---------------------------------------------------------------- encoding

  predicate IsSurrogate(c: CodePoint) {
    0xD800 <= c < 0xE000
  }

  /** How many bytes the group has that begins with this byte. */
  function GroupLength(lead: Byte): nat {
    if lead < 0x80 then 1 else if lead < 0xE0 then 2 else if lead < 0xF0 then 3 else 4
  }

  /** The code point that a group of UTF-8 bytes stands for: the lead byte tells how many bits follow. */
  function DecodeOne(bytes: seq<Byte>): int
    requires bytes != [] && |bytes| == GroupLength(bytes[0])
  {
    var lead := bytes[0] as int;
    if |bytes| == 1 then lead
    else if |bytes| == 2 then (lead - 0xC0) * 0x40 + Continued(bytes[1])
    else if |bytes| == 3 then ((lead - 0xE0) * 0x40 + Continued(bytes[1])) * 0x40 + Continued(bytes[2])
    else (((lead - 0xF0) * 0x40 + Continued(bytes[1])) * 0x40 + Continued(bytes[2])) * 0x40 + Continued(bytes[3])
  }

  function Continued(byte: Byte): int { byte as int - 0x80 }

  /**
   * UTF-8 of one code point, in the shortest form; a surrogate cannot be encoded and is replaced by a
   * question mark.
   */
  function EncodeOne(c: CodePoint): (bytes: seq<Byte>)
    ensures |bytes| == if IsSurrogate(c) || c < 0x80 then 1 else if c < 0x800 then 2 else if c < 0x1_0000 then 3 else 4
    ensures |bytes| == GroupLength(bytes[0])
    ensures IsSurrogate(c) ==> bytes == [0x3F]
    ensures forall i :: 1 <= i < |bytes| ==> 0x80 <= bytes[i] < 0xC0
  {
    var x := c as int;
    if x < 0x80 then [x as Byte]
    else if x < 0x800 then [(0xC0 + x / 0x40) as Byte, (0x80 + x % 0x40) as Byte]
    else if 0xD800 <= x < 0xE000 then [0x3F]
    else if x < 0x1_0000 then [(0xE0 + x / 0x1000) as Byte, (0x80 + x / 0x40 % 0x40) as Byte, (0x80 + x % 0x40) as Byte]
    else
      [(0xF0 + x / 0x4_0000) as Byte, (0x80 + x / 0x1000 % 0x40) as Byte, (0x80 + x / 0x40 % 0x40) as Byte,
       (0x80 + x % 0x40) as Byte]
  }

  lemma SixBits(x: nat)
    ensures x == x / 0x40 * 0x40 + x % 0x40
    ensures x / 0x1000 == x / 0x40 / 0x40 && x / 0x4_0000 == x / 0x40 / 0x40 / 0x40
  {
  }

  /** Decoding recovers every code point that can be encoded. */
  lemma {:induction false} DecodeEncoded(c: CodePoint)
    requires !IsSurrogate(c)
    ensures DecodeOne(EncodeOne(c)) == c as int
  {
    var x := c as int;
    SixBits(x);
    SixBits(x / 0x40);
    SixBits(x / 0x40 / 0x40);
  }

  function Encode(text: Text): seq<Byte> {
    if text == [] then [] else EncodeOne(text[0]) + Encode(text[1..])
  }

  lemma {:induction false} EncodeAppend(s: Text, t: Text)
    ensures Encode(s + t) == Encode(s) + Encode(t)
  {
    if s == [] {
      assert s + t == t;
    } else {
      EncodeAppend(s[1..], t);
      assert (s + t)[1..] == s[1..] + t && (s + t)[0] == s[0];
      Assoc(EncodeOne(s[0]), Encode(s[1..]), Encode(t));
    }
  }

  // ---------------------------------------------------------------- substrings

  predicate OccursAt(value: Text, text: Text, i: nat) {
    i + |value| <= |text| && text[i..i + |value|] == value
  }

  predicate Contains(text: Text, value: Text) {
    exists i :: 0 <= i <= |text| && OccursAt(value, text, i)
  }

  /** The first `n` items, or all of them when there are fewer. */
  function First<T>(items: seq<T>, n: nat): seq<T> {
    if |items| <= n then items else items[..n]
  }

  /** The last `n` items, or all of them when there are fewer. */
  function Last<T>(items: seq<T>, n: nat): seq<T> {
    if |items| <= n then items else items[|items| - n..]
  }

  lemma {:induction false} ContainsWithin(before: Text, text: Text, after: Text, value: Text)
    requires Contains(text, value)
    ensures Contains(before + text + after, value)
  {
    var i :| 0 <= i <= |text| && OccursAt(value, text, i);
    var whole := before + text + after;
    assert whole[|before| + i..|before| + i + |value|] == text[i..i + |value|];
    assert OccursAt(value, whole, |before| + i);
  }

  lemma {:induction false} WindowIsInside(stream: Text, written: Text, value: Text, limit: nat)
    requires || Contains(stream, value) || Contains(written, value)
             || Contains(Last(stream, limit) + First(written, limit), value)
    ensures Contains(stream + written, value)
  {
    var tail, head := Last(stream, limit), First(written, limit);
    var skipped, rest := stream[..|stream| - |tail|], written[|head|..];
    if Contains(stream, value) {
      ContainsWithin([], stream, written, value);
      assert [] + stream + written == stream + written;
    } else if Contains(written, value) {
      ContainsWithin(stream, written, [], value);
      assert stream + written + [] == stream + written;
    } else {
      ContainsWithin(skipped, tail + head, rest, value);
      assert skipped + tail == stream && head + rest == written;
      assert skipped + (tail + head) + rest == (skipped + tail) + (head + rest);
    }
  }

  /** A slice of a concatenation that starts in the first part and ends in the second. */
  lemma {:induction false} SliceAcross(s: Text, t: Text, i: nat, j: nat)
    requires i <= |s| <= j <= |s + t|
    ensures (s + t)[i..j] == s[i..] + t[..j - |s|]
  {
  }

  lemma {:induction false} OccurrenceIsCovered(stream: Text, written: Text, value: Text, limit: nat, i: nat)
    requires value != [] && |value| - 1 <= limit && OccursAt(value, stream + written, i)
    ensures || Contains(stream, value) || Contains(written, value)
            || Contains(Last(stream, limit) + First(written, limit), value)
  {
    var whole, end := stream + written, i + |value|;
    if end <= |stream| {
      assert stream[i..end] == whole[i..end];
      assert OccursAt(value, stream, i);
    } else if |stream| <= i {
      assert written[i - |stream|..end - |stream|] == whole[i..end];
      assert OccursAt(value, written, i - |stream|);
    } else {
      var tail, head := Last(stream, limit), First(written, limit);
      var k := i - (|stream| - |tail|);
      SliceAcross(stream, written, i, end);
      SliceAcross(tail, head, k, k + |value|);
      assert stream[i..] == tail[k..] && written[..end - |stream|] == head[..k + |value| - |tail|];
      assert OccursAt(value, tail + head, k);
    }
  }

  /**
   * A value occurs in the text after a write exactly when it occurs in the text before, in the written
   * value, or in the window made of the last and the first `limit` characters around the boundary,
   * provided the limit is at least one less than the value's length.
   */
  lemma {:induction false} CrossingWindow(stream: Text, written: Text, value: Text, limit: nat)
    requires value != [] && |value| - 1 <= limit
    ensures Contains(stream + written, value) <==>
      || Contains(stream, value)
      || Contains(written, value)
      || Contains(Last(stream, limit) + First(written, limit), value)
  {
    if Contains(stream + written, value) {
      var i :| 0 <= i <= |stream + written| && OccursAt(value, stream + written, i);
      OccurrenceIsCovered(stream, written, value, limit, i);
    } else if Contains(stream, value) || Contains(written, value)
              || Contains(Last(stream, limit) + First(written, limit), value) {
      WindowIsInside(stream, written, value, limit);
    }
  }

  /** The kept prefix can be extended from the kept prefix alone, and it tells whether it overflows. */
  lemma {:induction false} PrefixOfPrefix<T>(before: seq<T>, added: seq<T>, limit: nat)
    ensures var kept := First(before, limit);
      var remaining := limit - |kept|;
      && remaining >= 0
      && First(before + added, limit) == (if remaining > 0 then kept + First(added, remaining) else kept)
      && (|before + added| > limit <==> |before| > limit || |added| > remaining)
  {
  }

  /** The kept suffix can be updated from the kept suffix alone. */
  lemma {:induction false} SuffixOfSuffix<T>(stream: seq<T>, written: seq<T>, limit: nat)
    ensures Last(Last(stream, limit) + Last(written, limit), limit) == Last(stream + written, limit)
  {
    var tail, added := Last(stream, limit), Last(written, limit);
    if |written| < limit && |stream| > limit {
      LastOfAppend(stream, written, limit);
      LastOfAppend(tail, written, limit);
      assert tail[|tail| - (limit - |written|)..] == stream[|stream| - (limit - |written|)..];
    } else if |written| >= limit {
      LastIsAdded(stream, written, limit);
      LastIsAdded(tail, added, limit);
    }
  }

  lemma {:induction false} LastOfAppend<T>(stream: seq<T>, written: seq<T>, limit: nat)
    requires |written| < limit <= |stream|
    ensures Last(stream + written, limit) == stream[|stream| - (limit - |written|)..] + written
  {
  }

  lemma {:induction false} LastIsAdded<T>(stream: seq<T>, written: seq<T>, limit: nat)
    requires |written| >= limit
    ensures Last(stream + written, limit) == written[|written| - limit..]
  {
  }

  // ---------------------------------------------------------------- what a run of writes observes

  predicate Sensitive(forbidden: seq<Text>, text: Text) {
    exists k :: 0 <= k < |forbidden| && Contains(text, forbidden[k])
  }

  /** The bytes of all segments. */
  function TotalBytes(segments: seq<Text>): nat {
    if segments == [] then 0 else TotalBytes(segments[..|segments| - 1]) + |Encode(segments[|segments| - 1])|
  }

  ghost predicate AnySensitive(forbidden: seq<Text>, segments: seq<Text>) {
    exists i :: 0 <= i < |segments| && Sensitive(forbidden, segments[i])
  }

  ghost predicate AnyOverflow(maximumBytes: nat, segments: seq<Text>) {
    exists i :: 0 <= i < |segments| && |Encode(segments[i])| > maximumBytes
  }

  /** What must be reported about the segments written so far, whatever writes produced them. */
  ghost function ObservationOf(forbidden: seq<Text>, maximumBytes: nat, segments: seq<Text>): DiagnosticObservation {
    DiagnosticObservation(TotalBytes(segments), AnyOverflow(maximumBytes, segments), AnySensitive(forbidden, segments))
  }

  /** The current segment grows; the others keep what they had. */
  lemma {:induction false} GrownSegment(
    forbidden: seq<Text>, maximumBytes: nat, closed: seq<Text>, current: Text, grown: Text)
    ensures AnySensitive(forbidden, closed + [grown]) <==>
      AnySensitive(forbidden, closed) || Sensitive(forbidden, grown)
    ensures AnyOverflow(maximumBytes, closed + [grown]) <==>
      AnyOverflow(maximumBytes, closed) || |Encode(grown)| > maximumBytes
    ensures TotalBytes(closed + [grown]) == TotalBytes(closed) + |Encode(grown)|
  {
    var segments := closed + [grown];
    assert segments[..|closed|] == closed && segments[|closed|] == grown;
    if AnySensitive(forbidden, closed) {
      var i :| 0 <= i < |closed| && Sensitive(forbidden, closed[i]);
      assert Sensitive(forbidden, segments[i]);
    }
    if AnyOverflow(maximumBytes, closed) {
      var i :| 0 <= i < |closed| && |Encode(closed[i])| > maximumBytes;
      assert |Encode(segments[i])| > maximumBytes;
    }
  }

  /** Without a discard the report is about the whole text: how it was split into writes does not matter. */
  lemma {:induction false} UndiscardedObservation(forbidden: seq<Text>, maximumBytes: nat, text: Text)
    ensures ObservationOf(forbidden, maximumBytes, [text]) ==
      DiagnosticObservation(|Encode(text)|, |Encode(text)| > maximumBytes, Sensitive(forbidden, text))
  {
    GrownSegment(forbidden, maximumBytes, [], text, text);
    assert [] + [text] == [text];
  }

  /** Some forbidden value occurs in the written value or in the window around the boundary. */
  predicate Crosses(forbidden: seq<Text>, written: Text, crossing: Text) {
    exists k :: 0 <= k < |forbidden| && (Contains(written, forbidden[k]) || Contains(crossing, forbidden[k]))
  }

  lemma {:induction false} SensitiveStep(forbidden: seq<Text>, stream: Text, written: Text, limit: nat)
    requires forall k :: 0 <= k < |forbidden| ==> forbidden[k] != [] && |forbidden[k]| - 1 <= limit
    ensures Sensitive(forbidden, stream + written) <==>
      || Sensitive(forbidden, stream)
      || Crosses(forbidden, written, Last(stream, limit) + First(written, limit))
  {
    forall k | 0 <= k < |forbidden|
      ensures Contains(stream + written, forbidden[k]) <==>
        || Contains(stream, forbidden[k])
        || Contains(written, forbidden[k])
        || Contains(Last(stream, limit) + First(written, limit), forbidden[k])
    {
      CrossingWindow(stream, written, forbidden[k], limit);
    }
  }

  /** The writer's own state. */
  datatype WriterState = WriterState(
    matchTail: Text, retained: seq<Byte>, bytesObserved: nat, truncated: bool, sensitive: bool)

  /** The forbidden values are not empty, and the limit is large enough for all of them. */
  ghost predicate Configured(forbidden: seq<Text>, limit: nat) {
    forall k :: 0 <= k < |forbidden| ==> forbidden[k] != [] && |forbidden[k]| - 1 <= limit
  }

  /** The state reports exactly the segments written so far. */
  ghost predicate Reports(forbidden: seq<Text>, maximumBytes: nat, limit: nat, segments: seq<Text>, s: WriterState)
    requires segments != []
  {
    var current := segments[|segments| - 1];
    && s.matchTail == Last(current, limit)
    && s.retained == First(Encode(current), maximumBytes)
    && s.bytesObserved == TotalBytes(segments)
    && s.truncated == AnyOverflow(maximumBytes, segments)
    && s.sensitive == AnySensitive(forbidden, segments)
  }

  lemma {:induction false} SegmentState(
    forbidden: seq<Text>, maximumBytes: nat, limit: nat, closed: seq<Text>, current: Text, s: WriterState)
    ensures Reports(forbidden, maximumBytes, limit, closed + [current], s) <==>
      && s.matchTail == Last(current, limit)
      && s.retained == First(Encode(current), maximumBytes)
      && s.bytesObserved == TotalBytes(closed) + |Encode(current)|
      && s.truncated == (AnyOverflow(maximumBytes, closed) || |Encode(current)| > maximumBytes)
      && s.sensitive == (AnySensitive(forbidden, closed) || Sensitive(forbidden, current))
  {
    GrownSegment(forbidden, maximumBytes, closed, current, current);
  }

  /** A new segment reports nothing yet. */
  lemma {:induction false} EmptySegment(
    forbidden: seq<Text>, maximumBytes: nat, limit: nat, closed: seq<Text>, s: WriterState)
    requires Configured(forbidden, limit)
    requires s.matchTail == [] && s.retained == [] && s.bytesObserved == TotalBytes(closed)
    requires s.truncated == AnyOverflow(maximumBytes, closed) && s.sensitive == AnySensitive(forbidden, closed)
    ensures Reports(forbidden, maximumBytes, limit, closed + [[]], s)
  {
    assert !Sensitive(forbidden, []);
    SegmentState(forbidden, maximumBytes, limit, closed, [], s);
  }

  /** The prefix, the byte count and the overflow after one write. */
  function RetainOf(s: WriterState, written: Text, maximumBytes: nat): WriterState {
    var encoded, remaining := Encode(written), maximumBytes - |s.retained|;
    s.(bytesObserved := s.bytesObserved + |encoded|,
       retained := if remaining > 0 then s.retained + First(encoded, remaining) else s.retained,
       truncated := s.truncated || |encoded| > remaining)
  }

  /** The search and the suffix after one write. */
  function MatchOf(s: WriterState, written: Text, forbidden: seq<Text>, limit: nat): WriterState {
    s.(sensitive := s.sensitive || Crosses(forbidden, written, s.matchTail + First(written, limit)),
       matchTail := if limit != 0 then Last(s.matchTail + Last(written, limit), limit) else s.matchTail)
  }

  function WriteOf(s: WriterState, written: Text, forbidden: seq<Text>, maximumBytes: nat, limit: nat): WriterState {
    MatchOf(RetainOf(s, written, maximumBytes), written, forbidden, limit)
  }

  /** What one write changes can be told from the kept prefix and suffix and the written value alone. */
  lemma {:induction false} WriteStep(
    forbidden: seq<Text>, maximumBytes: nat, limit: nat, closed: seq<Text>, current: Text, written: Text,
    s: WriterState)
    requires Configured(forbidden, limit)
    requires Reports(forbidden, maximumBytes, limit, closed + [current], s)
    ensures Reports(
      forbidden, maximumBytes, limit, closed + [current + written], WriteOf(s, written, forbidden, maximumBytes, limit))
  {
    SegmentState(forbidden, maximumBytes, limit, closed, current, s);
    SegmentState(
      forbidden, maximumBytes, limit, closed, current + written, WriteOf(s, written, forbidden, maximumBytes, limit));
    EncodeAppend(current, written);
    SensitiveStep(forbidden, current, written, limit);
    SuffixOfSuffix(current, written, limit);
    PrefixOfPrefix(Encode(current), Encode(written), maximumBytes);
  }

  // ---------------------------------------------------------------- runs of writes

  const UNWRITTEN := WriterState([], [], 0, false, false)

  /** The text of a run of writes. */
  function Joined(values: seq<Text>): Text {
    if values == [] then [] else values[0] + Joined(values[1..])
  }

  /** The state after a run of writes. */
  function WritesOf(
    s: WriterState, values: seq<Text>, forbidden: seq<Text>, maximumBytes: nat, limit: nat
  ): WriterState
    decreases |values|
  {
    if values == [] then s
    else
      WritesOf(WriteOf(s, values[0], forbidden, maximumBytes, limit), values[1..], forbidden, maximumBytes, limit)
  }

  /** A run of writes reports what a single write of the joined text would. */
  lemma {:induction false} WritesReportJoinedText(
    forbidden: seq<Text>, maximumBytes: nat, limit: nat, closed: seq<Text>, current: Text, values: seq<Text>,
    s: WriterState)
    requires Configured(forbidden, limit)
    requires Reports(forbidden, maximumBytes, limit, closed + [current], s)
    ensures Reports(
      forbidden, maximumBytes, limit, closed + [current + Joined(values)],
      WritesOf(s, values, forbidden, maximumBytes, limit))
    decreases |values|
  {
    if values == [] {
      assert current + [] == current;
    } else {
      WriteStep(forbidden, maximumBytes, limit, closed, current, values[0], s);
      Assoc(current, values[0], Joined(values[1..]));
      WritesReportJoinedText(
        forbidden, maximumBytes, limit, closed, current + values[0], values[1..],
        WriteOf(s, values[0], forbidden, maximumBytes, limit));
    }
  }

  /**
   * Over any run of writes from the start the flags are about the whole text: a forbidden value is
   * observed if and only if it occurs in the joined text, and the text is truncated if and only if its
   * encoding exceeds the bound, of which the first bytes are retained.
   */
  lemma {:induction false} RunObservesWholeText(forbidden: seq<Text>, maximumBytes: nat, limit: nat, values: seq<Text>)
    requires Configured(forbidden, limit)
    ensures var s, text := WritesOf(UNWRITTEN, values, forbidden, maximumBytes, limit), Joined(values);
      && s.sensitive == Sensitive(forbidden, text)
      && s.truncated == (|Encode(text)| > maximumBytes)
      && s.bytesObserved == |Encode(text)|
      && s.retained == First(Encode(text), maximumBytes)
      && s.matchTail == Last(text, limit)
  {
    var text := Joined(values);
    EmptySegment(forbidden, maximumBytes, limit, [], UNWRITTEN);
    WritesReportJoinedText(forbidden, maximumBytes, limit, [], [], values, UNWRITTEN);
    assert [] + [[] + text] == [[] + text] && [] + text == text;
    UndiscardedObservation(forbidden, maximumBytes, text);
  }

  /** However one text is split across writes, the state and with it the observation are the same. */
  lemma {:induction false} SplittingDoesNotMatter(
    forbidden: seq<Text>, maximumBytes: nat, limit: nat, values: seq<Text>, others: seq<Text>)
    requires Configured(forbidden, limit) && Joined(values) == Joined(others)
    ensures WritesOf(UNWRITTEN, values, forbidden, maximumBytes, limit) ==
      WritesOf(UNWRITTEN, others, forbidden, maximumBytes, limit)
  {
    RunObservesWholeText(forbidden, maximumBytes, limit, values);
    RunObservesWholeText(forbidden, maximumBytes, limit, others);
  }

  /** What is reported about segments occurs in the text they make up. */
  lemma {:induction false} ReportedOccurs(forbidden: seq<Text>, segments: seq<Text>, i: nat)
    requires i < |segments| && Sensitive(forbidden, segments[i])
    ensures Sensitive(forbidden, Joined(segments))
  {
    if i == 0 {
      var k :| 0 <= k < |forbidden| && Contains(segments[0], forbidden[k]);
      ContainsWithin([], segments[0], Joined(segments[1..]), forbidden[k]);
      assert [] + segments[0] + Joined(segments[1..]) == Joined(segments);
    } else {
      ReportedOccurs(forbidden, segments[1..], i - 1);
      var h :| 0 <= h < |forbidden| && Contains(Joined(segments[1..]), forbidden[h]);
      ContainsWithin(segments[0], Joined(segments[1..]), [], forbidden[h]);
      assert segments[0] + Joined(segments[1..]) + [] == Joined(segments);
    }
  }

  /** At some discard the text around it contains a forbidden value that no segment needs to contain. */
  ghost predicate LostAt(forbidden: seq<Text>, limit: nat, segments: seq<Text>, b: nat)
    requires b < |segments|
  {
    Sensitive(forbidden, Last(Joined(segments[..b]), limit) + First(segments[b], limit))
  }

  ghost predicate Lost(forbidden: seq<Text>, limit: nat, segments: seq<Text>) {
    exists b: nat :: 0 < b < |segments| && LostAt(forbidden, limit, segments, b)
  }

  lemma {:induction false} JoinedAppend(segments: seq<Text>, last: Text)
    ensures Joined(segments + [last]) == Joined(segments) + last
  {
    if segments == [] {
      assert [] + [last] == [last] && last + [] == last;
    } else {
      assert (segments + [last])[1..] == segments[1..] + [last];
      JoinedAppend(segments[1..], last);
      Assoc(segments[0], Joined(segments[1..]), last);
    }
  }

  lemma {:induction false} CrossesMeans(forbidden: seq<Text>, written: Text, crossing: Text)
    ensures Crosses(forbidden, written, crossing) <==> Sensitive(forbidden, written) || Sensitive(forbidden, crossing)
  {
  }

  lemma {:induction false} LostGrows(forbidden: seq<Text>, limit: nat, segments: seq<Text>, last: Text)
    ensures Lost(forbidden, limit, segments + [last]) <==>
      || Lost(forbidden, limit, segments)
      || (segments != [] && Sensitive(forbidden, Last(Joined(segments), limit) + First(last, limit)))
  {
    var longer := segments + [last];
    assert longer[..|segments|] == segments;
    forall b: nat | 0 < b < |segments|
      ensures LostAt(forbidden, limit, longer, b) <==> LostAt(forbidden, limit, segments, b)
    {
      assert longer[..b] == segments[..b];
    }
    if segments != [] && Sensitive(forbidden, Last(Joined(segments), limit) + First(last, limit)) {
      assert LostAt(forbidden, limit, longer, |segments|);
    }
  }

  /** A forbidden value occurs in the whole text if and only if a segment or the text around a discard has one. */
  lemma {:induction false} WholeTextSensitive(forbidden: seq<Text>, limit: nat, segments: seq<Text>)
    requires Configured(forbidden, limit)
    ensures Sensitive(forbidden, Joined(segments)) <==>
      AnySensitive(forbidden, segments) || Lost(forbidden, limit, segments)
    decreases |segments|
  {
    if segments != [] {
      var front, last := segments[..|segments| - 1], segments[|segments| - 1];
      assert segments == front + [last];
      WholeTextSensitive(forbidden, limit, front);
      JoinedAppend(front, last);
      SensitiveStep(forbidden, Joined(front), last, limit);
      CrossesMeans(forbidden, last, Last(Joined(front), limit) + First(last, limit));
      GrownSegment(forbidden, 0, front, last, last);
      LostGrows(forbidden, limit, front, last);
      if front == [] {
        FirstIsNotSensitive(forbidden, last, limit);
      }
    }
  }

  lemma {:induction false} FirstIsNotSensitive(forbidden: seq<Text>, text: Text, limit: nat)
    ensures Sensitive(forbidden, Last([], limit) + First(text, limit)) ==> Sensitive(forbidden, text)
  {
    if Sensitive(forbidden, Last([], limit) + First(text, limit)) {
      var k :| 0 <= k < |forbidden| && Contains(Last([], limit) + First(text, limit), forbidden[k]);
      WindowIsInside([], text, forbidden[k], limit);
      assert [] + text == text;
    }
  }

  /**
   * The report agrees with a search of the whole text exactly when some segment contains a forbidden
   * value or no window around a discard does.
   */
  lemma {:induction false} ReportMatchesTextIff(
    forbidden: seq<Text>, maximumBytes: nat, limit: nat, segments: seq<Text>)
    requires Configured(forbidden, limit)
    ensures var reported := ObservationOf(forbidden, maximumBytes, segments).sensitiveValueObserved;
      reported == Sensitive(forbidden, Joined(segments)) <==>
        AnySensitive(forbidden, segments) || !Lost(forbidden, limit, segments)
  {
    WholeTextSensitive(forbidden, limit, segments);
  }

  // ---------------------------------------------------------------- the writer

  /** The values that are not empty. */
  function NonEmpty(values: seq<Text>): (kept: seq<Text>)
    ensures forall k :: 0 <= k < |kept| ==> kept[k] in values && kept[k] != []
    ensures forall k :: 0 <= k < |values| && values[k] != [] ==> values[k] in kept
  {
    if values == [] then [] else (if values[0] == [] then [] else [values[0]]) + NonEmpty(values[1..])
  }

  /** One less than the longest value, zero when there is none. */
  function TailLimit(values: seq<Text>): (limit: nat)
    requires forall k :: 0 <= k < |values| ==> values[k] != []
    ensures Configured(values, limit)
    ensures values == [] ==> limit == 0
    ensures values != [] ==> exists k :: 0 <= k < |values| && limit == |values[k]| - 1
  {
    if values == [] then 0
    else
      var rest := TailLimit(values[1..]);
      if rest < |values[0]| - 1 || |values| == 1 then |values[0]| - 1 else rest
  }

  class BoundedDiagnosticWriter {
    const forbiddenValues: seq<Text>
    const matchTailLimit: nat
    const maximumBytes: nat
    var matchTail: Text
    var retained: seq<Byte>
    var bytesObserved: nat
    var truncated: bool
    var sensitive: bool
    /** The text between discards; the last one is still being written. */
    ghost var segments: seq<Text>

    ghost predicate Valid()
      reads this
    {
      && segments != []
      && Configured(forbiddenValues, matchTailLimit)
      && Reports(forbiddenValues, maximumBytes, matchTailLimit, segments, State())
    }

    ghost function State(): WriterState
      reads this
    {
      WriterState(matchTail, retained, bytesObserved, truncated, sensitive)
    }

    ghost function Current(): Text
      requires segments != []
      reads this
    {
      segments[|segments| - 1]
    }

    constructor (values: seq<Text>, maximumBytes: nat)
      ensures Valid() && segments == [[]] && this.maximumBytes == maximumBytes && State() == UNWRITTEN
      ensures forbiddenValues == NonEmpty(values) && matchTailLimit == TailLimit(NonEmpty(values))
    {
      forbiddenValues := NonEmpty(values);
      matchTailLimit := TailLimit(NonEmpty(values));
      this.maximumBytes := maximumBytes;
      matchTail, retained, bytesObserved, truncated, sensitive := [], [], 0, false, false;
      segments := [[]];
      new;
      EmptySegment(forbiddenValues, maximumBytes, matchTailLimit, [], State());
      assert [] + [[]] == segments;
    }

    /** The encoded value extends the retained prefix as far as it reaches. */
    method Retain(value: Text)
      modifies this`retained, this`bytesObserved, this`truncated
      ensures State() == RetainOf(old(State()), value, maximumBytes)
    {
      var encoded := Encode(value);
      bytesObserved := bytesObserved + |encoded|;
      var remaining := maximumBytes - |retained|;
      if remaining > 0 {
        retained := retained + First(encoded, remaining);
      }
      if |encoded| > remaining {
        truncated := true;
      }
    }

    /** The value and the window around the boundary are searched, and the kept suffix moves on. */
    method Match(value: Text)
      modifies this`matchTail, this`sensitive
      ensures State() == MatchOf(old(State()), value, forbiddenValues, matchTailLimit)
    {
      var crossing := matchTail + First(value, matchTailLimit);
      sensitive := sensitive || Crosses(forbiddenValues, value, crossing);
      if matchTailLimit != 0 {
        matchTail := Last(matchTail + Last(value, matchTailLimit), matchTailLimit);
      }
    }

    method Write(value: Text) returns (written: nat)
      requires Valid()
      modifies this
      ensures Valid()
      ensures segments == old(segments[..|segments| - 1]) + [old(Current()) + value]
      ensures State() == WriteOf(old(State()), value, forbiddenValues, maximumBytes, matchTailLimit)
      ensures written == |value|
    {
      ghost var closed, current := segments[..|segments| - 1], Current();
      ghost var grown := closed + [current + value];
      ghost var after := WriteOf(State(), value, forbiddenValues, maximumBytes, matchTailLimit);
      assert segments == closed + [current];
      WriteStep(forbiddenValues, maximumBytes, matchTailLimit, closed, current, value, State());
      assert Reports(forbiddenValues, maximumBytes, matchTailLimit, grown, after);
      Retain(value);
      Match(value);
      segments := grown;
      assert State() == after;
      written := |value|;
    }

    /** A run of writes is one write of the joined text, as far as anything is observed. */
    method WriteAll(values: seq<Text>)
      requires Valid()
      modifies this
      ensures Valid()
      ensures segments == old(segments[..|segments| - 1]) + [old(Current()) + Joined(values)]
      ensures State() == WritesOf(old(State()), values, forbiddenValues, maximumBytes, matchTailLimit)
      decreases |values|
    {
      ghost var closed, current := segments[..|segments| - 1], Current();
      if values == [] {
        assert segments == closed + [current] && current + [] == current;
      } else {
        var written := Write(values[0]);
        assert segments[..|segments| - 1] == closed;
        Assoc(current, values[0], Joined(values[1..]));
        WriteAll(values[1..]);
      }
    }

    method Observation() returns (observation: DiagnosticObservation)
      requires Valid()
      ensures observation == ObservationOf(forbiddenValues, maximumBytes, segments)
    {
      observation := DiagnosticObservation(bytesObserved, truncated, sensitive);
    }

    method Discard()
      requires Valid()
      modifies this
      ensures Valid()
      ensures segments == old(segments) + [[]]
      ensures retained == [] && matchTail == []
    {
      retained := [];
      matchTail := [];
      EmptySegment(forbiddenValues, maximumBytes, matchTailLimit, segments, State());
      segments := segments + [[]];
    }
  }

  const CAN: Text := [0x63, 0x61, 0x6E]
  const ARY: Text := [0x61, 0x72, 0x79]

  lemma {:induction false} SplitByDiscard(maximumBytes: nat)
    ensures NonEmpty([CAN + ARY]) == [CAN + ARY]
    ensures Sensitive([CAN + ARY], Joined([CAN, ARY]))
    ensures ObservationOf([CAN + ARY], maximumBytes, [CAN, ARY]).bytesObserved == 6
    ensures !ObservationOf([CAN + ARY], maximumBytes, [CAN, ARY]).sensitiveValueObserved
  {
    var forbidden := [CAN + ARY];
    assert NonEmpty([]) == [] && forbidden[1..] == [];
    JoinedAppend([CAN], ARY);
    JoinedAppend([], CAN);
    assert [CAN] + [ARY] == [CAN, ARY] && [] + [CAN] == [CAN] && [] + CAN == CAN;
    assert OccursAt(forbidden[0], Joined([CAN, ARY]), 0);
    GrownSegment(forbidden, maximumBytes, [CAN], ARY, ARY);
    GrownSegment(forbidden, maximumBytes, [], CAN, CAN);
    EncodeAscii(CAN);
    EncodeAscii(ARY);
  }

  lemma {:induction false} EncodeAscii(text: Text)
    requires forall i :: 0 <= i < |text| ==> text[i] < 0x80
    ensures |Encode(text)| == |text|
  {
    if text != [] {
      EncodeAscii(text[1..]);
    }
  }

  /** A writer that has captured one text and discarded it. */
  method Captured(values: seq<Text>, maximumBytes: nat, text: Text) returns (writer: BoundedDiagnosticWriter)
    ensures fresh(writer) && writer.Valid() && writer.segments == [text, []]
    ensures writer.forbiddenValues == NonEmpty(values) && writer.maximumBytes == maximumBytes
  {
    writer := new BoundedDiagnosticWriter(values, maximumBytes);
    var written := writer.Write(text);
    assert [] + text == text && [] + [text] == [text];
    writer.Discard();
  }

  /** Two captures by one writer, separated by a discard. */
  method ObserveCaptures(values: seq<Text>, maximumBytes: nat, first: Text, second: Text)
    returns (observation: DiagnosticObservation)
    ensures observation == ObservationOf(NonEmpty(values), maximumBytes, [first, second])
  {
    var writer := Captured(values, maximumBytes, first);
    var written := writer.Write(second);
    assert [first, []][..1] == [first] && [] + second == second;
    assert writer.segments == [first] + [second] == [first, second];
    observation := writer.Observation();
  }

  /** A discard separates captures: a value written half before and half after it is not reported. */
  method DiscardSeparatesCaptures(maximumBytes: nat) returns (observation: DiagnosticObservation)
    ensures !observation.sensitiveValueObserved && observation.bytesObserved == 6
    ensures Sensitive([CAN + ARY], Joined([CAN, ARY]))
  {
    SplitByDiscard(maximumBytes);
    observation := ObserveCaptures([CAN + ARY], maximumBytes, CAN, ARY);
  }
}
