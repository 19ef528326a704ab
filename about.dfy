/**
  The short bio of the about section: the bio split at every '.', the first
  two pieces joined back with '.', and a final '.' appended.
*/
module About {

  /** Number of occurrences of `c` in `s`. */
  function Count(s: string, c: char): nat {
    if s == [] then 0 else (if s[0] == c then 1 else 0) + Count(s[1..], c)
  }

  lemma {:induction false} CountAppend(a: string, b: string, c: char)
    ensures Count(a + b, c) == Count(a, c) + Count(b, c)
    decreases |a|
  {
    if a == [] {
      assert a + b == b;
    } else {
      assert (a + b)[1..] == a[1..] + b;
      CountAppend(a[1..], b, c);
    }
  }

  /** String.prototype.split with a one-character separator: the pieces between separators, empty ones included. */
  function Split(s: string, sep: char): (parts: seq<string>)
    ensures |parts| == Count(s, sep) + 1
    ensures forall k :: 0 <= k < |parts| ==> Count(parts[k], sep) == 0
    ensures Join(parts, sep) == s
  {
    if s == [] then [[]]
    else
      var rest := Split(s[1..], sep);
      if s[0] == sep then
        assert Join([[]] + rest, sep) == [sep] + Join(rest, sep) by {
          assert ([[]] + rest)[1..] == rest;
        }
        assert s == [sep] + s[1..];
        [[]] + rest
      else
        var parts := [[s[0]] + rest[0]] + rest[1..];
        assert Count(parts[0], sep) == 0 by { CountAppend([s[0]], rest[0], sep); }
        assert Join(parts, sep) == s by {
          assert parts[1..] == rest[1..];
          if |rest| == 1 {
            assert Join(parts, sep) == [s[0]] + rest[0] == [s[0]] + Join(rest, sep);
          } else {
            assert Join(parts, sep) == [s[0]] + rest[0] + [sep] + Join(rest[1..], sep);
            assert Join(rest, sep) == rest[0] + [sep] + Join(rest[1..], sep);
          }
          assert s == [s[0]] + s[1..];
        }
        parts
  }

  /** Array.prototype.join with a one-character separator. */
  function Join(parts: seq<string>, sep: char): string
    decreases |parts|
  {
    if parts == [] then []
    else if |parts| == 1 then parts[0]
    else parts[0] + [sep] + Join(parts[1..], sep)
  }

  /** A split of a string that starts with an ordinary character: that character leads the first piece. */
  lemma SplitCons(s: string, sep: char)
    requires s != [] && s[0] != sep
    ensures Split(s, sep) == [[s[0]] + Split(s[1..], sep)[0]] + Split(s[1..], sep)[1..]
  {
  }

  lemma HeadThenTail(w: string, x: string)
    requires w != []
    ensures [w[0]] + (w[1..] + x) == w + x
  {
  }

  /** A separator-free word in front of `t` only lengthens the first piece of `t`'s split. */
  lemma {:induction false} SplitWord(w: string, t: string, sep: char)
    requires Count(w, sep) == 0
    ensures Split(w + t, sep) == [w + Split(t, sep)[0]] + Split(t, sep)[1..]
    decreases |w|
  {
    var st := Split(t, sep);
    if w == [] {
      assert w + t == t;
      assert w + st[0] == st[0];
      assert [st[0]] + st[1..] == st;
    } else {
      var s := w + t;
      assert s[0] == w[0] != sep && s[1..] == w[1..] + t;
      SplitWord(w[1..], t, sep);
      var rest := Split(s[1..], sep);
      assert rest[0] == w[1..] + st[0] && rest[1..] == st[1..];
      SplitCons(s, sep);
      var first := [w[0]] + rest[0];
      HeadThenTail(w, st[0]);
      assert Split(s, sep) == [first] + rest[1..];
    }
  }

  /** A leading separator splits off an empty first piece. */
  lemma SplitAtSep(t: string, sep: char)
    ensures Split([sep] + t, sep) == [[]] + Split(t, sep)
  {
    assert ([sep] + t)[1..] == t;
  }

  lemma Reassemble(parts: seq<string>, pieces: seq<string>)
    requires |parts| > 0 && pieces == [[]] + parts[1..]
    ensures [parts[0] + pieces[0]] + pieces[1..] == parts
  {
    assert parts[0] + [] == parts[0];
  }

  lemma JoinCons(parts: seq<string>, sep: char)
    requires |parts| > 1
    ensures Join(parts, sep) == parts[0] + ([sep] + Join(parts[1..], sep))
  {
  }

  /** One step of `SplitJoin`: the first piece goes back in front of the split of the rest. */
  lemma SplitJoinCons(parts: seq<string>, sep: char)
    requires |parts| > 1 && Count(parts[0], sep) == 0
    requires Split(Join(parts[1..], sep), sep) == parts[1..]
    ensures Split(Join(parts, sep), sep) == parts
  {
    var u := [sep] + Join(parts[1..], sep);
    SplitAtSep(Join(parts[1..], sep), sep);
    SplitWord(parts[0], u, sep);
    JoinCons(parts, sep);
    Reassemble(parts, Split(u, sep));
  }

  /** Joining pieces that hold no separator and splitting again gives the pieces back. */
  lemma {:induction false} SplitJoin(parts: seq<string>, sep: char)
    requires |parts| > 0
    requires forall k :: 0 <= k < |parts| ==> Count(parts[k], sep) == 0
    ensures Split(Join(parts, sep), sep) == parts
    decreases |parts|
  {
    if |parts| == 1 {
      SplitWord(parts[0], [], sep);
      assert parts[0] + [] == parts[0];
    } else {
      SplitJoin(parts[1..], sep);
      SplitJoinCons(parts, sep);
    }
  }

  /** `bio.split('.').slice(0, 2).join('.') + '.'` */
  function ShortBio(bio: string): (r: string)
    ensures |r| > 0 && r[|r| - 1] == '.'
  {
    var parts := Split(bio, '.');
    Join(if |parts| < 2 then parts else parts[..2], '.') + "."
  }

  /** With at most one '.', nothing is cut: the bio gets one more '.'. */
  lemma ShortBioOfShortBio(bio: string)
    requires Count(bio, '.') <= 1
    ensures ShortBio(bio) == bio + "."
  {
    var parts := Split(bio, '.');
    assert (if |parts| < 2 then parts else parts[..2]) == parts;
  }

  /**
    With two or more '.', the short bio is the prefix of the bio that ends at
    its second '.': a prefix, ending in '.', holding exactly two of them.
  */
  lemma ShortBioCutsAtSecondDot(bio: string)
    requires Count(bio, '.') >= 2
    ensures |ShortBio(bio)| <= |bio| && ShortBio(bio) == bio[..|ShortBio(bio)|]
    ensures Count(ShortBio(bio), '.') == 2
  {
    var parts := Split(bio, '.');
    assert |parts| >= 3;
    var first := parts[0] + ['.'] + parts[1];
    assert Join(parts[..2], '.') == first by {
      assert parts[..2][1..] == [parts[1]];
    }
    assert Join(parts, '.') == first + ['.'] + Join(parts[2..], '.') by {
      assert parts[1..][1..] == parts[2..];
    }
    var cut := first + ".";
    assert bio == cut + Join(parts[2..], '.');
    assert ShortBio(bio) == cut;
    CountAppend(parts[0] + ['.'], parts[1], '.');
    CountAppend(parts[0], ['.'], '.');
    CountAppend(first, ".", '.');
  }

  /** The short bio holds one '.' more than the bio does, up to two. */
  lemma ShortBioDots(bio: string)
    ensures Count(ShortBio(bio), '.') == (if Count(bio, '.') < 1 then Count(bio, '.') else 1) + 1
  {
    if Count(bio, '.') <= 1 {
      ShortBioOfShortBio(bio);
      CountAppend(bio, ".", '.');
    } else {
      ShortBioCutsAtSecondDot(bio);
    }
  }
}
