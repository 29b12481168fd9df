/**
 * The string operations of the Python standard library that the rule
 * checker relies on: string comparison and `sorted` over a set of
 * strings, `str.join`, the newline rewriting of `generic_message`, and
 * `os.path.basename` / `os.path.splitext` on POSIX paths.
 */
module Text {

  /** Python's `a <= b` on `str`: lexicographic by code point, a proper
      prefix being smaller. */
  predicate StrLeq(a: string, b: string)
  {
    a == [] || (b != [] && (a[0] < b[0] || (a[0] == b[0] && StrLeq(a[1..], b[1..]))))
  }

  /** Python's `a < b` on `str`. */
  predicate StrLt(a: string, b: string) { StrLeq(a, b) && a != b }

  lemma {:induction false} StrLeqTotal(a: string, b: string)
    ensures StrLeq(a, b) || StrLeq(b, a)
  {
    if a != [] && b != [] && a[0] == b[0] {
      StrLeqTotal(a[1..], b[1..]);
    }
  }

  lemma {:induction false} StrLeqAntisymmetric(a: string, b: string)
    requires StrLeq(a, b) && StrLeq(b, a)
    ensures a == b
  {
    if a != [] && b != [] {
      StrLeqAntisymmetric(a[1..], b[1..]);
      assert a == [a[0]] + a[1..] && b == [b[0]] + b[1..];
    }
  }

  lemma {:induction false} StrLeqTransitive(a: string, b: string, c: string)
    requires StrLeq(a, b) && StrLeq(b, c)
    ensures StrLeq(a, c)
  {
    if a != [] && b != [] && c != [] && a[0] == b[0] == c[0] {
      StrLeqTransitive(a[1..], b[1..], c[1..]);
    }
  }

  lemma StrLtTransitive(a: string, b: string, c: string)
    requires StrLt(a, b) && StrLt(b, c)
    ensures StrLt(a, c)
  {
    StrLeqTransitive(a, b, c);
    if a == c {
      StrLeqAntisymmetric(a, b);
    }
  }

  /** Strictly increasing, hence without duplicates. */
  predicate StrictlySorted(xs: seq<string>)
  {
    forall i, j :: 0 <= i < j < |xs| ==> StrLt(xs[i], xs[j])
  }

  /** Inserts `x` into a strictly sorted sequence, unless it is already there. */
  function InsertUnique(x: string, xs: seq<string>): (r: seq<string>)
    requires StrictlySorted(xs)
    ensures StrictlySorted(r)
    ensures forall y :: y in r <==> y == x || y in xs
  {
    if xs == [] then [x]
    else if x == xs[0] then xs
    else if StrLeq(x, xs[0]) then
      assert forall j :: 0 <= j < |xs| ==> StrLt(x, xs[j]) by {
        forall j | 0 <= j < |xs| ensures StrLt(x, xs[j]) {
          if j > 0 { StrLtTransitive(x, xs[0], xs[j]); }
        }
      }
      [x] + xs
    else
      StrLeqTotal(x, xs[0]);
      var rest := InsertUnique(x, xs[1..]);
      assert forall y :: y in rest ==> StrLt(xs[0], y) by {
        forall y | y in rest ensures StrLt(xs[0], y) {
          if y != x {
            var k :| 1 <= k < |xs| && xs[k] == y;
          }
        }
      }
      [xs[0]] + rest
  }

  /** `sorted(set(xs))`: the distinct elements of `xs`, in increasing order. */
  function SortedUnique(xs: seq<string>): (r: seq<string>)
    ensures StrictlySorted(r)
    ensures forall y :: y in r <==> y in xs
  {
    if xs == [] then [] else InsertUnique(xs[0], SortedUnique(xs[1..]))
  }

  /** A strictly sorted sequence is determined by its elements, so
      `SortedUnique` is the one order Python's `sorted` can produce. */
  lemma {:induction false} StrictlySortedUnique(a: seq<string>, b: seq<string>)
    requires StrictlySorted(a) && StrictlySorted(b)
    requires forall y :: y in a <==> y in b
    ensures a == b
  {
    if a == [] {
      assert forall y :: y !in b;
      assert forall i :: 0 <= i < |b| ==> b[i] in b;
    } else {
      // a[0] and b[0] are both the least element
      assert a[0] in b;
      assert b[0] in a;
      if a[0] != b[0] {
        var i :| 0 <= i < |a| && a[i] == b[0];
        var j :| 0 <= j < |b| && b[j] == a[0];
        assert StrLt(a[0], a[i]) && StrLt(b[0], b[j]);
        StrLeqAntisymmetric(a[0], b[0]);
      }
      forall y ensures y in a[1..] <==> y in b[1..] {
        if y in a[1..] {
          var i :| 1 <= i < |a| && a[i] == y;
          assert StrLt(a[0], y);
          assert y in a && y in b;
          var j :| 0 <= j < |b| && b[j] == y;
          assert j != 0;
          assert b[1..][j - 1] == y;
        }
        if y in b[1..] {
          var j :| 1 <= j < |b| && b[j] == y;
          assert StrLt(b[0], y);
          assert y in b && y in a;
          var i :| 0 <= i < |a| && a[i] == y;
          assert i != 0;
          assert a[1..][i - 1] == y;
        }
      }
      StrictlySortedUnique(a[1..], b[1..]);
      assert a == [a[0]] + a[1..] && b == [b[0]] + b[1..];
    }
  }

  /** `sep.join(xs)` */
  function Join(xs: seq<string>, sep: string): (r: string)
    ensures xs == [] ==> r == []
    ensures xs != [] ==> |xs[0]| <= |r| && r[..|xs[0]|] == xs[0]
    ensures xs != [] ==> |xs[|xs| - 1]| <= |r| && r[|r| - |xs[|xs| - 1]|..] == xs[|xs| - 1]
  {
    if xs == [] then [] else if |xs| == 1 then xs[0] else xs[0] + sep + Join(xs[1..], sep)
  }

  /** `s.replace('\n', '\n\t# ')`: every line after the first is turned
      into a YAML comment line. */
  function CommentNewlines(s: string): string
  {
    if s == [] then []
    else if s[0] == '\n' then "\n\t# " + CommentNewlines(s[1..])
    else [s[0]] + CommentNewlines(s[1..])
  }

  /** The reverse rewriting: drops the `\t# ` after each newline. */
  function UncommentNewlines(t: string): string
  {
    if t == [] then []
    else if |t| >= 4 && t[..4] == "\n\t# " then "\n" + UncommentNewlines(t[4..])
    else [t[0]] + UncommentNewlines(t[1..])
  }

  /** The rewriting loses nothing: the original text can be read back
      from the commented block. */
  lemma {:induction false} UncommentCommentNewlines(s: string)
    ensures UncommentNewlines(CommentNewlines(s)) == s
  {
    if s != [] {
      UncommentCommentNewlines(s[1..]);
      var t := CommentNewlines(s);
      if s[0] == '\n' {
        assert t[..4] == "\n\t# " && t[4..] == CommentNewlines(s[1..]);
      } else {
        assert t[0] == s[0] && t[1..] == CommentNewlines(s[1..]);
      }
      assert s == [s[0]] + s[1..];
    }
  }

  /** Every newline of the text opens a `\t# ` comment line. */
  predicate NewlinesCommented(t: string)
  {
    forall i :: 0 <= i < |t| && t[i] == '\n' ==> i + 3 < |t| && t[i + 1] == '\t' && t[i + 2] == '#' && t[i + 3] == ' '
  }

  lemma {:induction false} CommentNewlinesComments(s: string)
    ensures NewlinesCommented(CommentNewlines(s))
  {
    if s != [] {
      CommentNewlinesComments(s[1..]);
      var t := CommentNewlines(s);
      var u := CommentNewlines(s[1..]);
      var k := if s[0] == '\n' then 4 else 1;
      assert t == t[..k] + u;
      forall i | 0 <= i < |t| && t[i] == '\n'
        ensures i + 3 < |t| && t[i + 1] == '\t' && t[i + 2] == '#' && t[i + 3] == ' '
      {
        if i >= k {
          assert t[i] == u[i - k];
          assert t[i + 1] == u[i - k + 1] && t[i + 2] == u[i - k + 2] && t[i + 3] == u[i - k + 3];
        }
      }
    }
  }

  /** `os.path.basename(p)`: what follows the last `/`. */
  function Basename(p: string): (r: string)
    ensures '/' !in r
    ensures |r| <= |p| && r == p[|p| - |r|..]
  {
    if p == [] || p[|p| - 1] == '/' then []
    else Basename(p[..|p| - 1]) + [p[|p| - 1]]
  }

  /** The index of the last `.` in `b`, or -1 (`b.rfind('.')`). */
  function LastDot(b: string): (r: int)
    ensures -1 <= r < |b|
    ensures r >= 0 ==> b[r] == '.'
    ensures forall i :: r < i < |b| ==> b[i] != '.'
  {
    if b == [] then -1
    else if b[|b| - 1] == '.' then |b| - 1
    else LastDot(b[..|b| - 1])
  }

  /** `os.path.splitext(b)[0]` for a file name without `/`: the extension
      starts at the last dot, unless every character before that dot is a
      dot (a hidden file has no extension). */
  function StripExtension(b: string): (r: string)
    ensures |r| <= |b| && r == b[..|r|]
  {
    var d := LastDot(b);
    if d > 0 && exists i :: 0 <= i < d && b[i] != '.' then b[..d] else b
  }

  /** `splitext(basename(path))[0]`: the variable name a rule file stands for. */
  function VariableName(path: string): string
  {
    StripExtension(Basename(path))
  }

  lemma {:induction false} BasenameOfSuffix(prefix: string, name: string)
    requires '/' !in name
    requires prefix == [] || prefix[|prefix| - 1] == '/'
    ensures Basename(prefix + name) == name
  {
    if name != [] {
      var init, c := name[..|name| - 1], name[|name| - 1];
      var p := prefix + init + [c];
      assert prefix + name == p by {
        assert name == init + [c];
      }
      assert c != '/' && '/' !in init by {
        assert forall x :: x in init ==> x in name;
      }
      assert Basename(prefix + init) == init by {
        BasenameOfSuffix(prefix, init);
      }
      assert p[..|p| - 1] == prefix + init && p[|p| - 1] == c;
    } else {
      assert prefix + name == prefix;
    }
  }

  lemma {:induction false} LastDotOfExtension(name: string, ext: string)
    requires '.' !in ext
    ensures LastDot(name + "." + ext) == |name|
  {
    if ext != [] {
      var b := name + "." + ext;
      assert b[..|b| - 1] == name + "." + ext[..|ext| - 1];
      LastDotOfExtension(name, ext[..|ext| - 1]);
    } else {
      assert (name + "." + ext)[|name|] == '.';
    }
  }

  /** A rule file `<dir>/<name>.<ext>` names the variable `<name>`: the
      directory and the (last) extension are stripped, and dots inside the
      name are kept. */
  lemma VariableNameOfRuleFile(dir: string, name: string, ext: string)
    requires '/' !in name && '/' !in ext && '.' !in ext
    requires exists i :: 0 <= i < |name| && name[i] != '.'
    ensures VariableName(dir + "/" + name + "." + ext) == name
  {
    var file := name + "." + ext;
    assert '/' !in file by {
      forall i | 0 <= i < |file| ensures file[i] != '/' {
        if i < |name| { assert file[i] == name[i]; }
        else if i > |name| { assert file[i] == ext[i - |name| - 1]; }
      }
    }
    var prefix := dir + "/";
    assert dir + "/" + name + "." + ext == prefix + file;
    BasenameOfSuffix(prefix, file);
    LastDotOfExtension(name, ext);
    var i :| 0 <= i < |name| && name[i] != '.';
    assert 0 <= i < LastDot(file) && file[i] != '.';
    assert StripExtension(file) == file[..|name|];
    assert file[..|name|] == name;
  }
}
