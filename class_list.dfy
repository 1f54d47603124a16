/** An element's `classList` (a DOMTokenList): an ordered list of class
    tokens without repeats. `remove` drops a token wherever it stands and
    `add` appends a token only when it is absent. */
module ClassList {

  predicate NoDuplicates(tokens: seq<string>) {
    forall j, k :: 0 <= j < k < |tokens| ==> tokens[j] != tokens[k]
  }

  /** `classList.remove(t)`: the token is gone and every other token
      stays; the order of the others is kept (`RemoveLast` states it for a
      last token). */
  function Remove(tokens: seq<string>, t: string): (r: seq<string>)
    ensures t !in r
    ensures forall x :: x != t ==> (x in r <==> x in tokens)
    ensures |r| <= |tokens|
    ensures t !in tokens ==> r == tokens
    ensures NoDuplicates(tokens) ==> NoDuplicates(r)
  {
    if tokens == [] then []
    else if tokens[0] == t then Remove(tokens[1..], t)
    else
      var rest := Remove(tokens[1..], t);
      assert NoDuplicates(tokens) ==> NoDuplicates(tokens[1..]) && tokens[0] !in tokens[1..] by {
        if NoDuplicates(tokens) {
          forall j, k | 0 <= j < k < |tokens| - 1 ensures tokens[1..][j] != tokens[1..][k] {
            assert tokens[1..][j] == tokens[j + 1] && tokens[1..][k] == tokens[k + 1];
          }
        }
      }
      [tokens[0]] + rest
  }

  /** `classList.add(t)`: the token is present afterwards and nothing
      else changes; an absent token goes at the end. */
  function Add(tokens: seq<string>, t: string): (r: seq<string>)
    ensures t in r
    ensures forall x :: x in r <==> x in tokens || x == t
    ensures t in tokens ==> r == tokens
    ensures t !in tokens ==> r == tokens + [t]
    ensures NoDuplicates(tokens) ==> NoDuplicates(r)
  {
    if t in tokens then tokens else tokens + [t]
  }

  /** Removing the last token of a list without repeats takes it off the
      end and keeps the rest as it was. */
  lemma {:induction false} RemoveLast(tokens: seq<string>, t: string)
    requires NoDuplicates(tokens) && tokens != [] && tokens[|tokens| - 1] == t
    ensures Remove(tokens, t) == tokens[..|tokens| - 1]
    decreases |tokens|
  {
    if |tokens| == 1 {
      assert tokens[1..] == [];
    } else {
      assert tokens[0] != t;
      var tail := tokens[1..];
      assert NoDuplicates(tail) by {
        forall j, k | 0 <= j < k < |tail| ensures tail[j] != tail[k] {
          assert tail[j] == tokens[j + 1] && tail[k] == tokens[k + 1];
        }
      }
      RemoveLast(tail, t);
      assert tokens[..|tokens| - 1] == [tokens[0]] + tail[..|tail| - 1];
    }
  }

  /** Replacing the last token `a` of a list without repeats by an absent
      token `b` (remove, then add) puts `b` in its place. */
  lemma SwapLast(base: seq<string>, a: string, b: string)
    requires NoDuplicates(base + [a]) && b !in base && a != b
    ensures Add(Remove(base + [a], a), b) == base + [b]
    ensures NoDuplicates(base + [b])
  {
    var tokens := base + [a];
    RemoveLast(tokens, a);
    assert tokens[..|tokens| - 1] == base;
    assert NoDuplicates(base) by {
      forall j, k | 0 <= j < k < |base| ensures base[j] != base[k] {
        assert base[j] == tokens[j] && base[k] == tokens[k];
      }
    }
  }
}
