/**
  Dotted configuration paths: `key_path.split(".")` and its inverse,
  `".".join(keys)`.
 */
module DottedPath {

  const Sep: char := '.'

  /** The segments of a path contain no separator. */
  predicate NoSep(keys: seq<string>) {
    forall i :: 0 <= i < |keys| ==> Sep !in keys[i]
  }

  /**
    `s.split(".")`: always at least one segment; empty segments are kept
    (`"".split(".") == [""]`, `"a..b".split(".") == ["a", "", "b"]`).
   */
  function Split(s: string): (keys: seq<string>)
    ensures |keys| >= 1
    ensures NoSep(keys)
    decreases |s|
  {
    if |s| == 0 then [""]
    else
      var rest := Split(s[1..]);
      assert s == [s[0]] + s[1..];
      if s[0] == Sep then [""] + rest
      else [[s[0]] + rest[0]] + rest[1..]
  }

  /** `".".join(keys)`. */
  function Join(keys: seq<string>): string
    requires |keys| >= 1
    decreases |keys|
  {
    if |keys| == 1 then keys[0] else keys[0] + [Sep] + Join(keys[1..])
  }

  /** Joining the segments of a split gives back the path. */
  lemma {:induction false} JoinSplit(s: string)
    ensures Join(Split(s)) == s
    decreases |s|
  {
    if |s| > 0 {
      var rest := Split(s[1..]);
      JoinSplit(s[1..]);
      assert Join(rest) == s[1..];
      if s[0] == Sep {
        var keys := [""] + rest;
        assert keys[1..] == rest;
        calc {
          Join(keys);
          "" + [Sep] + Join(rest);
          [s[0]] + s[1..];
        }
      } else if |rest| == 1 {
        assert Split(s) == [[s[0]] + rest[0]];
        assert [s[0]] + s[1..] == s;
      } else {
        var keys := [[s[0]] + rest[0]] + rest[1..];
        assert keys[1..] == rest[1..];
        calc {
          Join(keys);
          [s[0]] + rest[0] + [Sep] + Join(rest[1..]);
          [s[0]] + (rest[0] + [Sep] + Join(rest[1..]));
          [s[0]] + Join(rest);
        }
        assert [s[0]] + s[1..] == s;
      }
    }
  }

  /** A path has one segment more than it has separators. */
  lemma {:induction false} SplitCount(s: string)
    ensures |Split(s)| == multiset(s)[Sep] + 1
    decreases |s|
  {
    if |s| > 0 {
      SplitCount(s[1..]);
      assert s == [s[0]] + s[1..];
      assert multiset(s) == multiset{s[0]} + multiset(s[1..]);
    }
  }

  /** A string without separators is a single segment. */
  lemma {:induction false} SplitNoSep(s: string)
    requires Sep !in s
    ensures Split(s) == [s]
    decreases |s|
  {
    if |s| > 0 {
      assert Sep !in s[1..] by {
        forall c | c in s[1..] ensures c != Sep {
          assert c in s;
        }
      }
      SplitNoSep(s[1..]);
      assert [s[0]] + s[1..] == s;
    }
  }

  /** A first segment without separators splits off as one segment. */
  lemma {:induction false} SplitCons(a: string, b: string)
    requires Sep !in a
    ensures Split(a + [Sep] + b) == [a] + Split(b)
    decreases |a|
  {
    var s := a + [Sep] + b;
    if |a| == 0 {
      assert s[1..] == b;
    } else {
      assert Sep !in a[1..] by {
        forall c | c in a[1..] ensures c != Sep {
          assert c in a;
        }
      }
      assert s[1..] == a[1..] + [Sep] + b;
      SplitCons(a[1..], b);
      assert [a[0]] + a[1..] == a;
    }
  }

  /** Splitting joined separator-free segments gives back the segments. */
  lemma {:induction false} SplitJoin(keys: seq<string>)
    requires |keys| >= 1 && NoSep(keys)
    ensures Split(Join(keys)) == keys
    decreases |keys|
  {
    if |keys| == 1 {
      SplitNoSep(keys[0]);
    } else {
      assert NoSep(keys[1..]) by {
        forall i | 0 <= i < |keys[1..]| ensures Sep !in keys[1..][i] {
          assert keys[1..][i] == keys[i + 1];
        }
      }
      SplitJoin(keys[1..]);
      assert Sep !in keys[0];
      SplitCons(keys[0], Join(keys[1..]));
      assert [keys[0]] + keys[1..] == keys;
    }
  }
}
