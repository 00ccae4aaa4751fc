/**
 * Extraction of the session token from the `Cookie` header presented at the
 * WebSocket handshake (index.js:196-202): the header is split on `;`, the first
 * segment that starts with `token=` is taken, and the token is the second piece
 * of that segment split on `=`. No segment is trimmed.
 */
module Cookie {
  import opened Wrappers

  const TokenPrefix: string := "token="

  predicate StartsWith(s: string, prefix: string)
  {
    |prefix| <= |s| && s[..|prefix|] == prefix
  }

  /** JavaScript's `String.prototype.split` with a one-character separator. */
  function Split(s: string, sep: char): (parts: seq<string>)
    ensures |parts| >= 1
    ensures forall i | 0 <= i < |parts| :: sep !in parts[i]
    decreases |s|
  {
    if s == [] then [[]]
    else
      var rest := Split(s[1..], sep);
      if s[0] == sep then [[]] + rest
      else [[s[0]] + rest[0]] + rest[1..]
  }

  /** The inverse of Split: the pieces glued back with the separator. */
  function Join(parts: seq<string>, sep: char): string
    requires |parts| >= 1
    decreases |parts|
  {
    if |parts| == 1 then parts[0] else parts[0] + [sep] + Join(parts[1..], sep)
  }

  /** Splitting loses nothing: the pieces put back together give the input. */
  lemma {:induction false} JoinSplit(s: string, sep: char)
    ensures Join(Split(s, sep), sep) == s
    decreases |s|
  {
    if s != [] {
      var rest := Split(s[1..], sep);
      JoinSplit(s[1..], sep);
      if s[0] == sep {
        assert Split(s, sep) == [[]] + rest;
        assert ([[]] + rest)[1..] == rest;
        assert s == [sep] + s[1..];
      } else {
        var parts := Split(s, sep);
        assert parts == [[s[0]] + rest[0]] + rest[1..];
        if |rest| == 1 {
          assert s == [s[0]] + s[1..];
        } else {
          assert parts[1..] == rest[1..];
          assert Join(rest, sep) == rest[0] + [sep] + Join(rest[1..], sep);
          assert s == [s[0]] + s[1..];
        }
      }
    }
  }

  /** A leading piece free of the separator is split off as a piece of its own. */
  lemma {:induction false} SplitLeading(a: string, sep: char, b: string)
    requires sep !in a
    ensures Split(a + [sep] + b, sep) == [a] + Split(b, sep)
    decreases |a|
  {
    var s := a + [sep] + b;
    if a == [] {
      assert s[1..] == b;
    } else {
      assert s[1..] == a[1..] + [sep] + b;
      SplitLeading(a[1..], sep, b);
      assert [a[0]] + a[1..] == a;
    }
  }

  /** A string free of the separator is a single piece. */
  lemma {:induction false} SplitWhole(a: string, sep: char)
    requires sep !in a
    ensures Split(a, sep) == [a]
    decreases |a|
  {
    if a != [] {
      SplitWhole(a[1..], sep);
      assert [a[0]] + a[1..] == a;
    }
  }

  /** Pieces free of the separator come back unchanged from a Join then a Split. */
  lemma {:induction false} SplitJoin(parts: seq<string>, sep: char)
    requires |parts| >= 1
    requires forall i | 0 <= i < |parts| :: sep !in parts[i]
    ensures Split(Join(parts, sep), sep) == parts
    decreases |parts|
  {
    if |parts| == 1 {
      SplitWhole(parts[0], sep);
    } else {
      SplitJoin(parts[1..], sep);
      SplitLeading(parts[0], sep, Join(parts[1..], sep));
      assert [parts[0]] + parts[1..] == parts;
    }
  }

  /** The first piece is the text before the first separator (or all of it). */
  lemma {:induction false} SplitHead(s: string, sep: char)
    ensures StartsWith(s, Split(s, sep)[0])
    ensures |Split(s, sep)[0]| == |s| || s[|Split(s, sep)[0]|] == sep
    decreases |s|
  {
    if s != [] && s[0] != sep {
      SplitHead(s[1..], sep);
    }
  }

  /** The index of the first segment that starts with `token=` (`Array.prototype.find`). */
  function FindToken(segments: seq<string>): (r: Option<nat>)
    ensures r.Some? ==> r.value < |segments| && StartsWith(segments[r.value], TokenPrefix)
    ensures r.Some? ==> forall j | 0 <= j < r.value :: !StartsWith(segments[j], TokenPrefix)
    ensures r.None? ==> forall j | 0 <= j < |segments| :: !StartsWith(segments[j], TokenPrefix)
    decreases |segments|
  {
    if segments == [] then None
    else if StartsWith(segments[0], TokenPrefix) then Some(0)
    else
      match FindToken(segments[1..])
      case None => None
      case Some(i) => Some(i + 1)
  }

  /** A segment that starts with `token=` splits on `=` into `token` and the pieces of the rest. */
  lemma SplitTokenSegment(segment: string)
    requires StartsWith(segment, TokenPrefix)
    ensures Split(segment, '=') == ["token"] + Split(segment[|TokenPrefix|..], '=')
  {
    assert segment == "token" + ['='] + segment[|TokenPrefix|..];
    SplitLeading("token", '=', segment[|TokenPrefix|..]);
  }

  /**
   * `tok.split('=')[1]`, kept only when truthy (index.js:201-202): the text
   * after `token=` up to the next `=` or the end of the segment.
   */
  function SegmentValue(segment: string): (r: Option<string>)
    requires StartsWith(segment, TokenPrefix)
    ensures r.Some? ==> r.value != [] && '=' !in r.value
    ensures r.Some? ==> StartsWith(segment[|TokenPrefix|..], r.value)
    ensures r.Some? ==> |TokenPrefix| + |r.value| == |segment| || segment[|TokenPrefix| + |r.value|] == '='
    ensures r.None? <==> |segment| == |TokenPrefix| || segment[|TokenPrefix|] == '='
  {
    SplitTokenSegment(segment);
    SplitHead(segment[|TokenPrefix|..], '=');
    var value := Split(segment, '=')[1];
    if value == [] then None else Some(value)
  }

  /**
   * The token carried by a handshake's `Cookie` header, if any
   * (index.js:196-202). An absent or empty header, no segment starting
   * with `token=`, or an empty value all give None.
   */
  function TokenOf(header: Option<string>): (r: Option<string>)
    ensures header.None? ==> r.None?
    ensures r.Some? ==> r.value != [] && '=' !in r.value && ';' !in r.value
  {
    if header.None? || header.value == [] then None
    else
      var segments := Split(header.value, ';');
      match FindToken(segments)
      case None => None
      case Some(i) =>
        var r := SegmentValue(segments[i]);
        assert r.Some? ==> r.value == segments[i][|TokenPrefix|..][..|r.value|];
        r
  }

  /** The first segment wins when it starts with `token=`, even if its value is empty. */
  lemma TokenInLeadingSegment(segment: string, tail: string)
    requires ';' !in segment && StartsWith(segment, TokenPrefix)
    requires tail == [] || tail[0] == ';'
    ensures TokenOf(Some(segment + tail)) == SegmentValue(segment)
  {
    if tail == [] {
      assert segment + tail == segment;
      SplitWhole(segment, ';');
    } else {
      assert segment + tail == segment + [';'] + tail[1..];
      SplitLeading(segment, ';', tail[1..]);
    }
  }

  /** A leading segment that does not start with `token=` is passed over. */
  lemma TokenSkipsSegment(segment: string, rest: string)
    requires ';' !in segment && !StartsWith(segment, TokenPrefix)
    ensures TokenOf(Some(segment + [';'] + rest)) == TokenOf(Some(rest))
  {
    var header := segment + [';'] + rest;
    var segments := Split(header, ';');
    SplitLeading(segment, ';', rest);
    assert segments[1..] == Split(rest, ';');
    assert FindToken(segments) == match FindToken(Split(rest, ';'))
                                  case None => None
                                  case Some(i) => Some(i + 1);
    if rest == [] {
      assert Split(rest, ';') == [[]];
      assert !StartsWith([], TokenPrefix);
    } else {
      match FindToken(Split(rest, ';'))
      case None =>
      case Some(i) =>
        assert segments[i + 1] == Split(rest, ';')[i];
    }
  }

  /** A header of one segment that does not start with `token=` carries no token. */
  lemma TokenAbsentFromSegment(segment: string)
    requires ';' !in segment && !StartsWith(segment, TokenPrefix)
    ensures TokenOf(Some(segment)) == None
  {
    SplitWhole(segment, ';');
  }

  /**
   * No trimming: after `; ` the next segment starts with a space, so a token
   * there is missed (for instance in `theme=dark; token=abc`).
   */
  lemma NoTrimming(first: string, v: string)
    requires ';' !in first && !StartsWith(first, TokenPrefix) && ';' !in v
    ensures TokenOf(Some(first + "; token=" + v)) == None
  {
    var rest := " token=" + v;
    assert first + "; token=" + v == first + [';'] + rest;
    assert rest[0] == ' ';
    assert !StartsWith(rest, TokenPrefix) by {
      assert |TokenPrefix| <= |rest| ==> rest[..|TokenPrefix|][0] == ' ';
    }
    assert ';' !in rest by {
      assert forall k | 0 <= k < |rest| :: rest[k] == (if k < 7 then " token="[k] else v[k - 7]);
    }
    TokenSkipsSegment(first, rest);
    TokenAbsentFromSegment(rest);
  }

  /** The first `token=` segment is used even when its value is empty and a later one is not. */
  lemma EmptyFirstTokenWins()
    ensures TokenOf(Some("token=;token=abc")) == None
  {
    assert "token=;token=abc" == "token=" + ";token=abc";
    TokenInLeadingSegment("token=", ";token=abc");
  }

  /** The value stops at the next `=`, and later segments are ignored. */
  lemma ValueStopsAtEquals()
    ensures TokenOf(Some("token=a=b;x=1")) == Some("a")
  {
    assert "token=a=b;x=1" == "token=a=b" + ";x=1";
    TokenInLeadingSegment("token=a=b", ";x=1");
    var segment := "token=a=b";
    assert segment[|TokenPrefix|..] == "a" + ['='] + "b";
    SplitLeading("a", '=', "b");
    SplitTokenSegment(segment);
  }
}
