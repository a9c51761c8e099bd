/**
 * Cell contents of the CSV tables: `Integer.toString` for identifiers and
 * `Collectors.joining(" ")` for identifier lists, together with the parser a
 * downstream reader of the tables uses, so that the round trip can be stated.
 */
module Cells {
  import opened Wrappers
  import opened Seqs

  predicate IsDigit(c: char) {
    '0' <= c <= '9'
  }

  function DigitChar(d: nat): (c: char)
    requires d < 10
    ensures IsDigit(c) && c as int - '0' as int == d
  {
    ('0' as int + d) as char
  }

  /** The decimal digits of `n`, most significant first, without leading zeros. */
  function NatToDecimal(n: nat): (s: string)
    ensures |s| >= 1
    ensures forall i :: 0 <= i < |s| ==> IsDigit(s[i])
    ensures n >= 10 ==> s[0] != '0'
  {
    if n < 10 then [DigitChar(n)] else NatToDecimal(n / 10) + [DigitChar(n % 10)]
  }

  /** `Integer.toString`: a minus sign for negative numbers, then the decimal digits. */
  function IntToDecimal(n: int): (s: string)
    ensures |s| >= 1 && ' ' !in s
    ensures (s[0] == '-') == (n < 0)
  {
    if n < 0 then "-" + NatToDecimal(-n) else NatToDecimal(n)
  }

  /** Reads a non-empty string of decimal digits. */
  function ParseNat(s: string): Option<nat>
  {
    if |s| == 0 || !IsDigit(s[|s| - 1]) then None
    else
      var d := s[|s| - 1] as int - '0' as int;
      if |s| == 1 then Some(d)
      else match ParseNat(s[..|s| - 1])
        case None => None
        case Some(v) => Some(10 * v + d)
  }

  /** Reads an optionally negative decimal integer. */
  function ParseInt(s: string): Option<int>
  {
    var digits := if |s| > 0 && s[0] == '-' then s[1..] else s;
    var magnitude := ParseNat(digits);
    if magnitude.None? then None
    else if |s| > 0 && s[0] == '-' then Some(-(magnitude.value as int))
    else Some(magnitude.value as int)
  }

  lemma {:induction false} ParseNatRoundTrip(n: nat)
    ensures ParseNat(NatToDecimal(n)) == Some(n)
  {
    if n >= 10 {
      var s := NatToDecimal(n);
      assert s[..|s| - 1] == NatToDecimal(n / 10);
      ParseNatRoundTrip(n / 10);
    }
  }

  /** Reading back what `Integer.toString` wrote gives the same number. */
  lemma ParseIntRoundTrip(n: int)
    ensures ParseInt(IntToDecimal(n)) == Some(n)
  {
    if n < 0 {
      assert IntToDecimal(n)[1..] == NatToDecimal(-n);
      ParseNatRoundTrip(-n);
    } else {
      ParseNatRoundTrip(n);
    }
  }

  /** `Collectors.joining(sep)`: the parts with `sep` between neighbours, "" for no parts. */
  function Join(parts: seq<string>, sep: string): string
  {
    if |parts| == 0 then ""
    else if |parts| == 1 then parts[0]
    else parts[0] + sep + Join(parts[1..], sep)
  }

  /** The summed lengths of the parts. */
  function TotalLength(parts: seq<string>): nat
  {
    if parts == [] then 0 else |parts[0]| + TotalLength(parts[1..])
  }

  /**
   * The shape of a joined string: empty for no parts; otherwise it starts with
   * the first part, ends with the last one, and its length is the parts' total
   * plus one separator between each pair of neighbours.
   */
  lemma {:induction false} JoinShape(parts: seq<string>, sep: string)
    ensures parts == [] ==> Join(parts, sep) == ""
    ensures |parts| >= 1 ==> parts[0] <= Join(parts, sep)
    ensures |parts| >= 1 ==> |Join(parts, sep)| >= |parts[|parts| - 1]| &&
                             Join(parts, sep)[|Join(parts, sep)| - |parts[|parts| - 1]|..] == parts[|parts| - 1]
    ensures |parts| >= 1 ==> |Join(parts, sep)| == TotalLength(parts) + (|parts| - 1) * |sep|
  {
    if |parts| >= 2 {
      var rest := parts[1..];
      JoinShape(rest, sep);
      var j := Join(parts, sep);
      var jr := Join(rest, sep);
      var last := parts[|parts| - 1];
      assert rest[|rest| - 1] == last;
      assert j == parts[0] + sep + jr;
      assert j[|j| - |last|..] == jr[|jr| - |last|..];
      assert (|parts| - 1) * |sep| == (|rest| - 1) * |sep| + |sep|;
    }
  }

  /** Cuts a cell at every single space; a cell without spaces is one piece. */
  function SplitOnSpaces(s: string): (r: seq<string>)
    ensures |r| >= 1
  {
    if |s| == 0 then [""]
    else
      var rest := SplitOnSpaces(s[1..]);
      if s[0] == ' ' then [""] + rest else [[s[0]] + rest[0]] + rest[1..]
  }

  lemma {:induction false} SplitWithoutSpace(x: string)
    requires ' ' !in x
    ensures SplitOnSpaces(x) == [x]
  {
    if |x| > 0 {
      assert ' ' !in x[1..] by {
        forall i | 0 <= i < |x[1..]| ensures x[1..][i] != ' ' { assert x[1..][i] == x[i + 1]; }
      }
      SplitWithoutSpace(x[1..]);
      assert [x[0]] + x[1..] == x;
    }
  }

  lemma {:induction false} SplitAfterPart(x: string, t: string)
    requires ' ' !in x
    ensures SplitOnSpaces(x + " " + t) == [x] + SplitOnSpaces(t)
  {
    if |x| == 0 {
      assert x + " " + t == " " + t;
      assert (" " + t)[1..] == t;
    } else {
      assert ' ' !in x[1..] by {
        forall i | 0 <= i < |x[1..]| ensures x[1..][i] != ' ' { assert x[1..][i] == x[i + 1]; }
      }
      assert (x + " " + t)[1..] == x[1..] + " " + t;
      SplitAfterPart(x[1..], t);
      assert [x[0]] + x[1..] == x;
    }
  }

  /** Splitting a space-joined list of space-free parts gives the parts back. */
  lemma {:induction false} SplitJoin(parts: seq<string>)
    requires |parts| >= 1
    requires forall i :: 0 <= i < |parts| ==> ' ' !in parts[i]
    ensures SplitOnSpaces(Join(parts, " ")) == parts
  {
    if |parts| == 1 {
      SplitWithoutSpace(parts[0]);
    } else {
      SplitJoin(parts[1..]);
      SplitAfterPart(parts[0], Join(parts[1..], " "));
    }
  }

  /** The identifier-list cell: the decimal identifiers joined by single spaces. */
  function JoinIds(ids: seq<int>): string
  {
    Join(MapSeq(ids, IntToDecimal), " ")
  }

  function ParseAll(cells: seq<string>): Option<seq<int>>
  {
    if |cells| == 0 then Some([])
    else match (ParseInt(cells[0]), ParseAll(cells[1..]))
      case (Some(v), Some(vs)) => Some([v] + vs)
      case _ => None
  }

  /** How a reader of the tables turns an identifier-list cell back into identifiers. */
  function ParseIds(cell: string): Option<seq<int>>
  {
    if cell == "" then Some([]) else ParseAll(SplitOnSpaces(cell))
  }

  lemma {:induction false} ParseAllDecimals(ids: seq<int>)
    ensures ParseAll(MapSeq(ids, IntToDecimal)) == Some(ids)
  {
    if |ids| > 0 {
      ParseIntRoundTrip(ids[0]);
      assert MapSeq(ids, IntToDecimal)[1..] == MapSeq(ids[1..], IntToDecimal);
      ParseAllDecimals(ids[1..]);
      assert [ids[0]] + ids[1..] == ids;
    }
  }

  lemma {:induction false} JoinStartsWithFirst(parts: seq<string>, sep: string)
    requires |parts| >= 1
    ensures |Join(parts, sep)| >= |parts[0]|
  {
  }

  /** The cell is empty exactly when the list is. */
  lemma JoinIdsEmpty(ids: seq<int>)
    ensures JoinIds(ids) == "" <==> ids == []
  {
    if ids != [] {
      JoinStartsWithFirst(MapSeq(ids, IntToDecimal), " ");
    }
  }

  /** Reading an identifier-list cell back gives exactly the identifiers, in order. */
  lemma JoinIdsRoundTrip(ids: seq<int>)
    ensures ParseIds(JoinIds(ids)) == Some(ids)
  {
    JoinIdsEmpty(ids);
    if ids != [] {
      SplitJoin(MapSeq(ids, IntToDecimal));
      ParseAllDecimals(ids);
    }
  }
}
