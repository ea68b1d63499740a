/** internal/sync/executor.go: when an expanded command is free of the `{file}` placeholder. */
module Substitution {
  import opened Text

  const FILE: string := "{file}"

  /** The expansion of one command with one file. */
  function Expand(cmd: string, file: string): string {
    ReplaceAll(cmd, FILE, file)
  }

  /** Neither a placeholder nor the beginning of one that the text after the file could complete. */
  predicate Safe(file: string) {
    && !Contains(file, FILE)
    && forall n :: 1 <= n < |FILE| && n <= |file| ==> file[|file| - n..] != FILE[..n]
  }

  /** Text that starts a replaced command and starts neither a placeholder nor a path was there before. */
  lemma {:induction false} PrefixKept(s: string, file: string, t: string)
    requires file != [] && file[0] == '/'
    requires forall i :: 0 <= i < |t| ==> t[i] != '{' && t[i] != '/'
    requires StartsWith(Expand(s, file), t)
    ensures StartsWith(s, t)
  {
    if t != [] {
      var r := Expand(s, file);
      assert r[0] == t[0];
      if |s| >= |FILE| && s[..|FILE|] != FILE {
        assert r[1..] == Expand(s[1..], file);
        assert r[..|t|][1..] == r[1..][..|t| - 1];
        PrefixKept(s[1..], file, t[1..]);
        assert t == [t[0]] + t[1..];
      }
    }
  }

  /** A command expanded with a safe absolute path contains no placeholder, wherever its own text came to lie. */
  lemma {:induction false} NoPlaceholder(s: string, file: string)
    requires file != [] && file[0] == '/' && Safe(file)
    ensures !Contains(Expand(s, file), FILE)
  {
    var r := Expand(s, file);
    forall k ensures !At(r, FILE, k) {
      if 0 <= k <= |r| {
        if |s| < |FILE| {
        } else if s[..|FILE|] == FILE {
          NoPlaceholder(s[|FILE|..], file);
          AfterFile(file, Expand(s[|FILE|..], file), k);
        } else {
          NoPlaceholder(s[1..], file);
          AfterOther(s, file, k);
        }
      }
    }
  }

  lemma AfterFile(file: string, rest: string, k: nat)
    requires Safe(file) && !Contains(rest, FILE) && k <= |file + rest|
    ensures !At(file + rest, FILE, k)
  {
    var r := file + rest;
    if k >= |file| {
      assert r[k..] == rest[k - |file|..];
      assert !At(rest, FILE, k - |file|);
    } else if k + |FILE| <= |file| {
      assert r[k..][..|FILE|] == file[k..][..|FILE|];
      assert !At(file, FILE, k);
    } else {
      var n := |file| - k;
      assert r[k..][..n] == file[k..];
      assert |FILE| <= |r[k..]| ==> r[k..][..|FILE|][..n] == r[k..][..n];
    }
  }

  lemma AfterOther(s: string, file: string, k: nat)
    requires file != [] && file[0] == '/'
    requires |s| >= |FILE| && s[..|FILE|] != FILE
    requires !Contains(Expand(s[1..], file), FILE) && k <= |Expand(s, file)|
    ensures !At(Expand(s, file), FILE, k)
  {
    var r, rest := Expand(s, file), Expand(s[1..], file);
    assert r == [s[0]] + rest;
    if k > 0 {
      assert r[k..] == rest[k - 1..];
      assert !At(rest, FILE, k - 1);
    } else {
      assert r[0..] == r && FILE == ['{'] + FILE[1..];
      assert |r| >= |FILE| ==> r[..|FILE|] == [s[0]] + rest[..|FILE| - 1];
      assert s[..|FILE|] == [s[0]] + s[1..][..|FILE| - 1];
      if StartsWith(rest, FILE[1..]) {
        PrefixKept(s[1..], file, FILE[1..]);
      }
    }
  }

  /** A command without a placeholder stays as it is. */
  lemma NothingExpanded(cmd: string, file: string)
    requires !Contains(cmd, FILE)
    ensures Expand(cmd, file) == cmd
  {
    ReplaceAllNone(cmd, FILE, file);
  }

  /** The first placeholder becomes the file, the text before it stays, and the text after it is expanded likewise. */
  lemma FirstExpanded(before: string, after: string, file: string)
    requires FirstAfter(before, FILE, after)
    ensures Expand(before + FILE + after, file) == before + file + Expand(after, file)
  {
    ReplaceAllFirst(before, FILE, after, file);
  }

  lemma ExpandFirst(rest: string, file: string)
    requires |rest| < |FILE|
    ensures Expand(FILE + rest, file) == file + rest
  {
    var cmd := FILE + rest;
    assert cmd[..|FILE|] == FILE && cmd[|FILE|..] == rest;
    assert ReplaceAll(rest, FILE, file) == rest;
    assert ReplaceAll(cmd, FILE, file) == file + ReplaceAll(cmd[|FILE|..], FILE, file);
  }

  /** For every other path some command does. */
  lemma UnsafeCommand(file: string) returns (cmd: string)
    requires !Safe(file)
    ensures Contains(Expand(cmd, file), FILE)
  {
    if Contains(file, FILE) {
      cmd := FILE;
      ExpandFirst([], file);
      assert FILE + [] == FILE && file + [] == file;
    } else {
      var n :| 1 <= n < |FILE| && n <= |file| && file[|file| - n..] == FILE[..n];
      cmd := FILE + FILE[n..];
      var r := file + FILE[n..];
      ExpandFirst(FILE[n..], file);
      assert r[|file| - n..] == file[|file| - n..] + FILE[n..];
      assert FILE[..n] + FILE[n..] == FILE;
      assert r[|file| - n..][..|FILE|] == FILE;
      assert At(r, FILE, |file| - n);
    }
  }

  /** For an absolute path: no command expands to something with a placeholder exactly when the path is safe. */
  lemma PlaceholderFreeExactly(file: string)
    requires file != [] && file[0] == '/'
    ensures (forall cmd :: !Contains(Expand(cmd, file), FILE)) <==> Safe(file)
  {
    if Safe(file) {
      forall cmd ensures !Contains(Expand(cmd, file), FILE) {
        NoPlaceholder(cmd, file);
      }
    } else {
      var cmd := UnsafeCommand(file);
    }
  }

  lemma FirstCharacter(s: string, t: string, k: nat)
    requires At(s, t, k) && t != []
    ensures k < |s| && s[k] == t[0]
  {
    assert s[k..][..|t|][0] == s[k];
  }

  /** In particular a path without an opening brace is safe. */
  lemma BraceFree(file: string)
    requires '{' !in file
    ensures Safe(file)
  {
    forall k ensures !At(file, FILE, k) {
      if At(file, FILE, k) {
        FirstCharacter(file, FILE, k);
      }
    }
    forall n | 1 <= n < |FILE| && n <= |file| ensures file[|file| - n..] != FILE[..n] {
      assert file[|file| - n..][0] == file[|file| - n] && FILE[..n][0] == '{';
    }
  }
}
