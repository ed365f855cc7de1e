/**
 * The two pieces of java.lang.String behaviour the request checks rely on:
 * `split` on a one-character separator and the decimal text of an integer
 * (string concatenation and `String.valueOf`).
 */
module JavaString {

  /** The pieces of `s` between occurrences of `sep`; always at least one piece. */
  function Pieces(s: string, sep: char): (r: seq<string>)
    ensures |r| >= 1
    ensures forall i :: 0 <= i < |r| ==> sep !in r[i]
  {
    if |s| == 0 then [""]
    else
      var rest := Pieces(s[1..], sep);
      if s[0] == sep then [""] + rest
      else [[s[0]] + rest[0]] + rest[1..]
  }

  /** The pieces joined back with `sep` between them (`String.join`). */
  function Join(parts: seq<string>, sep: char): string
  {
    if |parts| == 0 then ""
    else if |parts| == 1 then parts[0]
    else parts[0] + [sep] + Join(parts[1..], sep)
  }

  /** Drops the empty strings at the end of `parts`. */
  function DropTrailingEmpty(parts: seq<string>): (r: seq<string>)
    ensures r <= parts
    ensures r != [] ==> r[|r| - 1] != ""
    ensures forall i :: |r| <= i < |parts| ==> parts[i] == ""
  {
    if |parts| == 0 then []
    else if parts[|parts| - 1] == "" then DropTrailingEmpty(parts[..|parts| - 1])
    else parts
  }

  /**
   * `s.split(String.valueOf(sep))` with limit 0, for a separator that is not a
   * regular-expression metacharacter (such as ','; Java's `split` takes a
   * regex, so '.' or '|' would behave differently): a string without the
   * separator is its own single piece; otherwise the pieces, trailing empty
   * ones dropped (so "a,,b" gives three pieces and "," gives none).
   */
  function Split(s: string, sep: char): seq<string>
  {
    if sep !in s then [s] else DropTrailingEmpty(Pieces(s, sep))
  }

  /** Joining the pieces with the separator gives the string back. */
  lemma {:induction false} JoinPieces(s: string, sep: char)
    ensures Join(Pieces(s, sep), sep) == s
  {
    if |s| > 0 {
      var rest := Pieces(s[1..], sep);
      JoinPieces(s[1..], sep);
      if s[0] == sep {
        assert Pieces(s, sep) == [""] + rest;
        assert ([""] + rest)[1..] == rest;
      } else {
        var p := Pieces(s, sep);
        assert p == [[s[0]] + rest[0]] + rest[1..];
        if |rest| == 1 {
          assert Join(p, sep) == [s[0]] + rest[0];
        } else {
          assert p[1..] == rest[1..];
          assert Join(rest, sep) == rest[0] + [sep] + Join(rest[1..], sep);
          assert Join(p, sep) == ([s[0]] + rest[0]) + [sep] + Join(rest[1..], sep);
        }
      }
      assert s == [s[0]] + s[1..];
    }
  }

  /** The last piece is exactly what follows the last separator, so it is empty iff `s` ends with `sep`. */
  lemma {:induction false} LastPieceEmpty(s: string, sep: char)
    ensures var p := Pieces(s, sep); p[|p| - 1] == "" <==> (|s| == 0 || s[|s| - 1] == sep)
  {
    if |s| > 0 {
      LastPieceEmpty(s[1..], sep);
      var rest := Pieces(s[1..], sep);
      var p := Pieces(s, sep);
      if s[0] == sep {
        assert p[|p| - 1] == rest[|rest| - 1];
      } else if |rest| == 1 {
        assert p == [[s[0]] + rest[0]];
        assert |s[1..]| == 0 || s[|s| - 1] == s[1..][|s[1..]| - 1];
      } else {
        assert p[|p| - 1] == rest[|rest| - 1];
      }
    }
  }

  /**
   * The split pieces never contain the separator, and when `s` is non-empty
   * and does not end with the separator, joining them gives `s` back.
   */
  lemma SplitJoin(s: string, sep: char)
    requires |s| > 0 && s[|s| - 1] != sep
    ensures forall i :: 0 <= i < |Split(s, sep)| ==> sep !in Split(s, sep)[i]
    ensures Join(Split(s, sep), sep) == s
  {
    if sep in s {
      LastPieceEmpty(s, sep);
      var p := Pieces(s, sep);
      assert DropTrailingEmpty(p) == p;
      JoinPieces(s, sep);
    }
  }

  /** A string without the separator is one piece. */
  lemma {:induction false} PiecesWithoutSep(s: string, sep: char)
    requires sep !in s
    ensures Pieces(s, sep) == [s]
  {
    if |s| > 0 {
      PiecesWithoutSep(s[1..], sep);
      assert s == [s[0]] + s[1..];
    }
  }

  /** A separator appended to `s` adds one empty piece at the end. */
  lemma {:induction false} PiecesAppendSep(s: string, sep: char)
    ensures Pieces(s + [sep], sep) == Pieces(s, sep) + [""]
  {
    if |s| == 0 {
      assert s + [sep] == [sep] && [sep][1..] == "";
    } else {
      assert (s + [sep])[1..] == s[1..] + [sep];
      PiecesAppendSep(s[1..], sep);
      var rest := Pieces(s[1..], sep);
      if s[0] != sep {
        assert (rest + [""])[1..] == rest[1..] + [""];
      }
    }
  }

  /**
   * Java's trailing-empty rule in general: a separator appended to a
   * non-empty string does not change its split.
   */
  lemma SplitIgnoresTrailingSeparator(s: string, sep: char)
    requires |s| > 0
    ensures Split(s + [sep], sep) == Split(s, sep)
  {
    assert sep in s + [sep] by { assert (s + [sep])[|s|] == sep; }
    PiecesAppendSep(s, sep);
    var p := Pieces(s, sep);
    assert (p + [""])[..|p|] == p;
    if sep !in s {
      PiecesWithoutSep(s, sep);
      assert DropTrailingEmpty([s]) == [s];
    }
  }

  /** Trailing separators vanish: "," gives no pieces and "a,b," the same pieces as "a,b". */
  lemma SplitDropsTrailing()
    ensures Split(",", ',') == []
    ensures Split("a,b,", ',') == ["a", "b"]
  {
    assert ',' in "," && ',' in "a,b,";
    assert "," [1..] == "" && Pieces("", ',') == [""];
    assert Pieces(",", ',') == ["", ""];
    assert "a,b,"[1..] == ",b," && ",b,"[1..] == "b," && "b,"[1..] == ",";
    assert Pieces("b,", ',') == [['b'] + ""] + ["", ""][1..];
    assert ['b'] + "" == "b" && ["", ""][1..] == [""];
    assert Pieces("b,", ',') == ["b", ""];
    assert Pieces(",b,", ',') == ["", "b", ""];
    assert Pieces("a,b,", ',') == [['a'] + ""] + ["", "b", ""][1..];
    assert ['a'] + "" == "a" && ["", "b", ""][1..] == ["b", ""];
    assert Pieces("a,b,", ',') == ["a", "b", ""];
  }

  /** Inner empty pieces stay: "a,,b" gives three pieces, and "ab" is its own single piece. */
  lemma SplitKeepsInner()
    ensures Split("a,,b", ',') == ["a", "", "b"]
    ensures Split("ab", ',') == ["ab"]
  {
    assert ',' in "a,,b" && ',' !in "ab";
    assert "a,,b"[1..] == ",,b" && ",,b"[1..] == ",b" && ",b"[1..] == "b";
    assert "b"[1..] == "" && Pieces("", ',') == [""];
    assert Pieces("b", ',') == [['b'] + ""] + [""][1..];
    assert ['b'] + "" == "b" && [""][1..] == [];
    assert Pieces("b", ',') == ["b"];
    assert Pieces(",b", ',') == ["", "b"];
    assert Pieces(",,b", ',') == ["", "", "b"];
    assert Pieces("a,,b", ',') == [['a'] + ""] + ["", "", "b"][1..];
    assert ['a'] + "" == "a" && ["", "", "b"][1..] == ["", "b"];
    assert Pieces("a,,b", ',') == ["a", "", "b"];
  }

  /** Decimal digits of a natural number. */
  function NatText(n: nat): (r: string)
    ensures |r| >= 1
    ensures forall i :: 0 <= i < |r| ==> '0' <= r[i] <= '9'
  {
    if n < 10 then ["0123456789"[n]] else NatText(n / 10) + ["0123456789"[n % 10]]
  }

  /** `String.valueOf(n)` for a Java int or long. */
  function IntText(n: int): string
  {
    if n < 0 then "-" + NatText(-n) else NatText(n)
  }
}
