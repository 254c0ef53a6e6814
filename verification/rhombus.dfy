/** Model of the row builder in patterns/rhombus.js: row `i`, for `i` from 1
    to `n`, is `i - 1` copies of two spaces followed by `n` copies of "* ".
    Reading `n` from a prompt and printing each row are left to the caller:
    the rows are returned in order. */
module Rhombus {

  /** One step of indentation. */
  const Indent: string := "  "

  /** One cell of the pattern: an asterisk and a space. */
  const Cell: string := "* "

  /** `s` appended to the empty string `k` times. */
  function Repeat(s: string, k: nat): (r: string)
    ensures |r| == k * |s|
    decreases k
  {
    if k == 0 then "" else Repeat(s, k - 1) + s
  }

  /** Row `i` of a pattern with `n` rows. */
  function Row(n: nat, i: nat): (r: string)
    requires 1 <= i
    ensures |r| == 2 * (i - 1) + 2 * n
  {
    Repeat(Indent, i - 1) + Repeat(Cell, n)
  }

  /** All rows, in order; none when `n < 1`. */
  function Rows(n: int): (rows: seq<string>)
    ensures |rows| == if n < 1 then 0 else n
    ensures forall k :: 0 <= k < |rows| ==> rows[k] == Row(n, k + 1)
  {
    if n < 1 then [] else seq(n, k requires 0 <= k < n => Row(n, k + 1))
  }

  /** The nested loops of the script, one row per pass of the outer loop,
      each row started from the empty string. */
  method BuildRows(n: int) returns (rows: seq<string>)
    ensures rows == Rows(n)
  {
    rows := [];
    var i := 1;
    while i <= n
      invariant 1 <= i <= if n < 1 then 1 else n + 1
      invariant |rows| == i - 1
      invariant forall k :: 0 <= k < i - 1 ==> rows[k] == Row(n, k + 1)
    {
      var str := "";
      var j := 1;
      while j <= i - 1
        invariant 1 <= j <= i
        invariant str == Repeat(Indent, j - 1)
      {
        str := str + Indent;
        j := j + 1;
      }
      j := 1;
      while j <= n
        invariant 1 <= j <= n + 1
        invariant str == Repeat(Indent, i - 1) + Repeat(Cell, j - 1)
      {
        str := str + Cell;
        j := j + 1;
      }
      rows := rows + [str];
      i := i + 1;
    }
  }

  /** Indentation is spaces only. */
  lemma {:induction false} IndentIsSpaces(k: nat)
    ensures forall p :: 0 <= p < |Repeat(Indent, k)| ==> Repeat(Indent, k)[p] == ' '
    decreases k
  {
    if k > 0 {
      IndentIsSpaces(k - 1);
    }
  }

  /** `k` cells are `k` asterisks, each followed by one space. */
  lemma {:induction false} CellsShape(k: nat)
    ensures forall c :: 0 <= c < k ==> Repeat(Cell, k)[2 * c] == '*' && Repeat(Cell, k)[2 * c + 1] == ' '
    decreases k
  {
    if k > 0 {
      CellsShape(k - 1);
    }
  }

  /** `k` cells hold exactly `k` asterisks; indentation holds none. */
  lemma {:induction false} StarCount(k: nat)
    ensures multiset(Repeat(Cell, k))['*'] == k
    ensures multiset(Repeat(Indent, k))['*'] == 0
    decreases k
  {
    if k > 0 {
      StarCount(k - 1);
    }
  }

  /** Appending `s` or prepending it to `k` copies of `s` gives the same string. */
  lemma {:induction false} RepeatCommutes(s: string, k: nat)
    ensures Repeat(s, k) + s == s + Repeat(s, k)
    decreases k
  {
    if k > 0 {
      RepeatCommutes(s, k - 1);
      calc {
        Repeat(s, k) + s;
        (Repeat(s, k - 1) + s) + s;
        (s + Repeat(s, k - 1)) + s;
        s + (Repeat(s, k - 1) + s);
      }
    }
  }

  /** Row `i` is `2 * (i - 1)` spaces followed by `n` asterisks, each followed
      by a space (its length is stated by `Row`), and it holds exactly `n`
      asterisks. */
  lemma RowShape(n: nat, i: nat)
    requires 1 <= i
    ensures forall p :: 0 <= p < 2 * (i - 1) ==> Row(n, i)[p] == ' '
    ensures forall c :: 0 <= c < n ==> Row(n, i)[2 * (i - 1) + 2 * c] == '*' && Row(n, i)[2 * (i - 1) + 2 * c + 1] == ' '
    ensures multiset(Row(n, i))['*'] == n
  {
    IndentIsSpaces(i - 1);
    CellsShape(n);
    StarCount(n);
    StarCount(i - 1);
  }

  /** The next row is this row with two more spaces in front: the asterisk
      part is the same and only the indentation grows. */
  lemma RowNext(n: nat, i: nat)
    requires 1 <= i
    ensures Row(n, i + 1) == Indent + Row(n, i)
  {
    RepeatCommutes(Indent, i - 1);
  }
}
