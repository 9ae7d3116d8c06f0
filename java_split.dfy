/** Java's `String.split(",")`: the text between commas, except that trailing
    empty strings are dropped; a string without any comma splits into itself. */
module JavaSplit {

  /** Every comma-separated piece of `s`, empty ones included: one more than the
      number of commas. */
  function Pieces(s: string): (r: seq<string>)
    ensures |r| >= 1
    ensures forall i :: 0 <= i < |r| ==> ',' !in r[i]
    ensures ',' !in s ==> r == [s]
  {
    if s == [] then [""]
    else
      var rest := Pieces(s[1..]);
      if s[0] == ',' then [""] + rest
      else
        assert [s[0]] + s[1..] == s;
        [[s[0]] + rest[0]] + rest[1..]
  }

  /** The pieces put back together with a comma between each two. */
  function Join(fields: seq<string>): string
    requires |fields| >= 1
  {
    if |fields| == 1 then fields[0] else fields[0] + "," + Join(fields[1..])
  }

  /** Nothing of the line is lost in its pieces. */
  lemma {:induction false} JoinPieces(s: string)
    ensures Join(Pieces(s)) == s
  {
    if s != [] {
      var rest := Pieces(s[1..]);
      JoinPieces(s[1..]);
      if s[0] == ',' {
        assert Pieces(s)[1..] == rest;
      } else {
        if |rest| == 1 {
          assert [s[0]] + s[1..] == s;
        } else {
          assert Pieces(s)[1..] == rest[1..];
          calc {
            Join(Pieces(s));
            ([s[0]] + rest[0]) + "," + Join(rest[1..]);
            [s[0]] + (rest[0] + "," + Join(rest[1..]));
            [s[0]] + s[1..];
            s;
          }
        }
      }
    }
  }

  /** And pieces without commas are recovered from their join. */
  lemma {:induction false} PiecesJoin(fields: seq<string>)
    requires |fields| >= 1
    requires forall i :: 0 <= i < |fields| ==> ',' !in fields[i]
    ensures Pieces(Join(fields)) == fields
  {
    if |fields| > 1 {
      PiecesJoin(fields[1..]);
      PiecesPrefix(fields[0], Join(fields[1..]));
      assert [fields[0]] + fields[1..] == fields;
    }
  }

  /** The pieces of a comma-free `a`, a comma, then `b`. */
  lemma {:induction false} PiecesPrefix(a: string, b: string)
    requires ',' !in a
    ensures Pieces(a + "," + b) == [a] + Pieces(b)
  {
    if a == [] {
      assert a + "," + b == [','] + b;
      assert ([','] + b)[1..] == b;
    } else {
      PiecesPrefix(a[1..], b);
      assert (a + "," + b)[1..] == a[1..] + "," + b;
      assert [a[0]] + a[1..] == a;
    }
  }

  /** `fields` without its trailing empty strings. */
  function DropTrailingEmpty(fields: seq<string>): (r: seq<string>)
    ensures r <= fields
    ensures forall i :: |r| <= i < |fields| ==> fields[i] == ""
    ensures r == [] || r[|r| - 1] != ""
  {
    if fields == [] || fields[|fields| - 1] != "" then fields
    else DropTrailingEmpty(fields[..|fields| - 1])
  }

  /** `s.split(",")`. */
  function Split(s: string): (r: seq<string>)
    ensures ',' !in s ==> r == [s]
    ensures r <= Pieces(s)
    ensures forall i :: 0 <= i < |r| ==> ',' !in r[i]
    ensures ',' in s ==> (forall i :: |r| <= i < |Pieces(s)| ==> Pieces(s)[i] == "")
                         && (r == [] || r[|r| - 1] != "")
  {
    if ',' !in s then [s] else DropTrailingEmpty(Pieces(s))
  }
}
