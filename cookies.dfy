/** The CSRF token read from the cookie string: the cookie is cut into entries
    at every "; ", the first entry beginning with "csrftoken" is picked, and
    the token is the second piece of that entry cut at "="; it is undefined
    when no entry qualifies or the entry holds no "=". Cutting follows
    JavaScript's string split with a string separator: a left-to-right scan
    that cuts at every non-overlapping occurrence. */
module Cookies {
  import opened Forms

  const EntrySeparator := "; "
  const TokenCookie := "csrftoken"

  predicate StartsWith(s: string, prefix: string)
  {
    |prefix| <= |s| && s[..|prefix|] == prefix
  }

  /** The pieces of `s` cut at every occurrence of a non-empty separator. */
  function Split(s: string, sep: string): (parts: seq<string>)
    requires sep != ""
    ensures |parts| >= 1
    decreases |s|
  {
    if |s| < |sep| then [s]
    else if s[..|sep|] == sep then [""] + Split(s[|sep|..], sep)
    else
      var rest := Split(s[1..], sep);
      [[s[0]] + rest[0]] + rest[1..]
  }

  /** The pieces glued back together with the separator between them: the inverse of `Split`. */
  function Join(parts: seq<string>, sep: string): string
    decreases |parts|
  {
    if |parts| == 0 then ""
    else if |parts| == 1 then parts[0]
    else parts[0] + sep + Join(parts[1..], sep)
  }

  /** Splitting loses nothing: joining the pieces again gives back the input. */
  lemma {:induction false} JoinSplit(s: string, sep: string)
    requires sep != ""
    ensures Join(Split(s, sep), sep) == s
    decreases |s|
  {
    if |s| < |sep| {
    } else if s[..|sep|] == sep {
      var rest := Split(s[|sep|..], sep);
      JoinSplit(s[|sep|..], sep);
      assert Split(s, sep) == [""] + rest;
      assert ([""] + rest)[1..] == rest;
      assert s == s[..|sep|] + s[|sep|..];
    } else {
      var rest := Split(s[1..], sep);
      JoinSplit(s[1..], sep);
      var parts := Split(s, sep);
      assert parts == [[s[0]] + rest[0]] + rest[1..];
      assert s == [s[0]] + s[1..];
      if |rest| > 1 {
        assert parts[1..] == rest[1..];
        assert Join(rest, sep) == rest[0] + sep + Join(rest[1..], sep);
      }
    }
  }

  /** `sep` occurs in `s` as a contiguous run starting at index `k`. */
  predicate OccursAt(s: string, sep: string, k: int)
  {
    0 <= k && k + |sep| <= |s| && s[k..k + |sep|] == sep
  }

  /** `sep` occurs somewhere in `s` as a contiguous run. */
  ghost predicate Contains(s: string, sep: string)
  {
    exists k :: OccursAt(s, sep, k)
  }

  /** The first piece of a split is a prefix of the input. */
  lemma SplitFirstIsPrefix(s: string, sep: string)
    requires sep != ""
    ensures |Split(s, sep)[0]| <= |s| && s[..|Split(s, sep)[0]|] == Split(s, sep)[0]
  {
    var parts := Split(s, sep);
    JoinSplit(s, sep);
    if |parts| > 1 {
      assert Join(parts, sep) == parts[0] + sep + Join(parts[1..], sep);
    }
  }

  /** A character put in front of a run free of `sep` creates no occurrence
      except possibly one at the very front. */
  lemma ConsNoOccurrence(x: char, r: string, sep: string)
    requires !Contains(r, sep) && !OccursAt([x] + r, sep, 0)
    ensures !Contains([x] + r, sep)
  {
    var c := [x] + r;
    forall k | 1 <= k && k + |sep| <= |c| ensures !OccursAt(c, sep, k) {
      assert c[k..k + |sep|] == r[k - 1..k - 1 + |sep|];
      assert !OccursAt(r, sep, k - 1);
    }
  }

  /** No piece of a split contains the separator: every occurrence was cut. */
  lemma {:induction false} SplitPieces(s: string, sep: string)
    requires sep != ""
    ensures forall i :: 0 <= i < |Split(s, sep)| ==> !Contains(Split(s, sep)[i], sep)
    decreases |s|
  {
    var parts := Split(s, sep);
    if |s| < |sep| {
      assert parts == [s];
    } else if s[..|sep|] == sep {
      var rest := Split(s[|sep|..], sep);
      SplitPieces(s[|sep|..], sep);
      assert parts == [""] + rest;
      forall i | 1 <= i < |parts| ensures !Contains(parts[i], sep) {
        assert parts[i] == rest[i - 1];
      }
    } else {
      var rest := Split(s[1..], sep);
      SplitPieces(s[1..], sep);
      SplitFirstIsPrefix(s[1..], sep);
      var first := [s[0]] + rest[0];
      assert parts == [first] + rest[1..];
      if |sep| <= |first| {
        assert s[..|first|] == first;
        assert first[..|sep|] == s[..|sep|];
      }
      ConsNoOccurrence(s[0], rest[0], sep);
      forall i | 1 <= i < |parts| ensures !Contains(parts[i], sep) {
        assert parts[i] == rest[i];
      }
    }
  }

  /** Splitting on a one-character separator leaves that character in no piece. */
  lemma SplitCharPieces(s: string, sep: string)
    requires |sep| == 1
    ensures forall i :: 0 <= i < |Split(s, sep)| ==> sep[0] !in Split(s, sep)[i]
  {
    SplitPieces(s, sep);
    forall i | 0 <= i < |Split(s, sep)| ensures sep[0] !in Split(s, sep)[i] {
      var piece := Split(s, sep)[i];
      forall k | 0 <= k < |piece| ensures piece[k] != sep[0] {
        assert !OccursAt(piece, sep, k);
        assert piece[k..k + 1] == [piece[k]] && sep == [sep[0]];
      }
    }
  }

  /** The index of the first row that starts with `prefix`, as an array search finds it. */
  function FirstMatch(rows: seq<string>, prefix: string): (r: Option<nat>)
    ensures r.Some? ==> r.value < |rows| && StartsWith(rows[r.value], prefix)
    ensures r.Some? ==> forall j :: 0 <= j < r.value ==> !StartsWith(rows[j], prefix)
    ensures r.None? ==> forall j :: 0 <= j < |rows| ==> !StartsWith(rows[j], prefix)
    decreases |rows|
  {
    if rows == [] then None
    else if StartsWith(rows[0], prefix) then Some(0)
    else match FirstMatch(rows[1..], prefix)
      case None => None
      case Some(i) => Some(i + 1)
  }

  /** The `csrftoken` value of a cookie string; `None` stands for `undefined`. */
  function CsrfToken(cookie: string): Option<string>
  {
    var rows := Split(cookie, EntrySeparator);
    match FirstMatch(rows, TokenCookie)
    case None => None
    case Some(i) =>
      var parts := Split(rows[i], "=");
      if |parts| >= 2 then Some(parts[1]) else None
  }

  /** A piece count of one means the one-character separator does not occur. */
  lemma SplitCharSingle(s: string, sep: string)
    requires |sep| == 1
    ensures |Split(s, sep)| == 1 <==> sep[0] !in s
  {
    JoinSplit(s, sep);
    SplitCharPieces(s, sep);
    var parts := Split(s, sep);
    if |parts| > 1 {
      assert Join(parts, sep) == parts[0] + sep + Join(parts[1..], sep);
      assert s[|parts[0]|] == sep[0];
    }
  }

  /** Joining two or more pieces puts the separator after the first two. */
  lemma JoinTwo(parts: seq<string>, sep: string)
    requires |parts| >= 2
    ensures Join(parts, sep)
            == parts[0] + sep + parts[1] + (if |parts| == 2 then "" else sep + Join(parts[2..], sep))
  {
    assert parts[1..][0] == parts[1];
    if |parts| > 2 {
      assert parts[1..][1..] == parts[2..];
    }
  }

  /** `v` is the text between the first `=` of `entry` and its second `=`
      (or its end). */
  ghost predicate BetweenFirstEquals(entry: string, v: string)
  {
    exists p :: && 0 <= p < |entry| && entry[p] == '=' && '=' !in entry[..p]
                && p + 1 + |v| <= |entry| && entry[p + 1..p + 1 + |v|] == v && '=' !in v
                && (p + 1 + |v| == |entry| || entry[p + 1 + |v|] == '=')
  }

  /** The second piece of an entry split on `=` lies between its first two `=`. */
  lemma ValueBetweenEquals(entry: string)
    requires |Split(entry, "=")| >= 2
    ensures BetweenFirstEquals(entry, Split(entry, "=")[1])
  {
    var parts := Split(entry, "=");
    JoinSplit(entry, "=");
    SplitCharPieces(entry, "=");
    JoinTwo(parts, "=");
    var rest := if |parts| == 2 then "" else "=" + Join(parts[2..], "=");
    var p, v := |parts[0]|, parts[1];
    assert entry == parts[0] + "=" + v + rest;
    assert entry[..p] == parts[0];
    assert entry[p + 1..p + 1 + |v|] == v;
    assert '=' !in parts[0] && '=' !in v;
    assert p + 1 + |v| < |entry| ==> entry[p + 1 + |v|] == rest[0] == '=';
  }

  /** There is no token exactly when no entry starts with `csrftoken`, or the
      first entry that does holds no `=`. */
  lemma CsrfTokenAbsent(cookie: string)
    ensures var rows := Split(cookie, EntrySeparator);
      CsrfToken(cookie) == None <==>
        || (forall j :: 0 <= j < |rows| ==> !StartsWith(rows[j], TokenCookie))
        || (FirstMatch(rows, TokenCookie).Some? && '=' !in rows[FirstMatch(rows, TokenCookie).value])
  {
    var rows := Split(cookie, EntrySeparator);
    match FirstMatch(rows, TokenCookie)
    case None =>
    case Some(i) =>
      SplitCharSingle(rows[i], "=");
      assert StartsWith(rows[i], TokenCookie);
      assert CsrfToken(cookie) == None <==> |Split(rows[i], "=")| < 2;
      assert |Split(rows[i], "=")| < 2 <==> '=' !in rows[i];
  }

  /** A token is the text between the first and the second `=` of the first
      entry that starts with `csrftoken` (FirstMatch finds the first such entry). */
  lemma CsrfTokenPresent(cookie: string, v: string)
    requires CsrfToken(cookie) == Some(v)
    ensures var rows := Split(cookie, EntrySeparator);
      && FirstMatch(rows, TokenCookie).Some?
      && BetweenFirstEquals(rows[FirstMatch(rows, TokenCookie).value], v)
  {
    var rows := Split(cookie, EntrySeparator);
    var i := FirstMatch(rows, TokenCookie).value;
    ValueBetweenEquals(rows[i]);
  }
}
