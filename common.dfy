/** Option and Result: the error returns and "None" of the modelled Python code. */
module Wrappers {
  datatype Option<+T> = None | Some(value: T)

  datatype Result<+T, +E> = Ok(value: T) | Err(error: E)
}

/** The few operations on Python `str` that the modelled code uses. */
module Text {
  /** Python's `sub in s`. */
  predicate Contains(s: string, sub: string) {
    exists i :: 0 <= i <= |s| && sub <= s[i..]
  }

  /** Python's `s.startswith(p)`. */
  predicate StartsWith(s: string, p: string) {
    p <= s
  }

  /** Python's `s.endswith(suffix)`. */
  predicate EndsWith(s: string, suffix: string) {
    |suffix| <= |s| && s[|s| - |suffix|..] == suffix
  }

  /** Python's `str.lower()` on one character, restricted to ASCII letters. */
  function LowerChar(c: char): char {
    if 'A' <= c <= 'Z' then (c as int + 32) as char else c
  }

  /** Python's `str.lower()`, restricted to ASCII letters. */
  function Lower(s: string): string {
    seq(|s|, i requires 0 <= i < |s| => LowerChar(s[i]))
  }

  lemma {:induction false} ContainsAt(s: string, sub: string, i: nat)
    requires i + |sub| <= |s| && s[i..i + |sub|] == sub
    ensures Contains(s, sub)
  {
    assert sub <= s[i..];
  }

  /** A string lacking some character of `sub` does not contain `sub`. */
  lemma NotContainsChar(s: string, sub: string, k: nat)
    requires k < |sub| && sub[k] !in s
    ensures !Contains(s, sub)
  {
  }

  /** Python's `str(n)` for an int. */
  function IntToString(n: int): (r: string)
    ensures r != []
  {
    if n < 0 then "-" + NatToString(-n) else NatToString(n)
  }

  function NatToString(n: nat): (r: string)
    ensures r != []
    ensures forall c :: c in r ==> '0' <= c <= '9'
  {
    if n < 10 then [Digit(n)] else NatToString(n / 10) + [Digit(n % 10)]
  }

  function Digit(d: nat): (c: char)
    requires d < 10
    ensures '0' <= c <= '9'
  {
    ('0' as int + d) as char
  }

  /** Python's `sep.join(items)`. */
  function JoinWith(sep: string, items: seq<string>): string {
    if items == [] then ""
    else if |items| == 1 then items[0]
    else items[0] + sep + JoinWith(sep, items[1..])
  }

  /** Python's `s.split(sep)` for a one-character separator: never empty, and empty parts are kept. */
  function Split(s: string, sep: char): (parts: seq<string>)
    ensures |parts| >= 1
  {
    if s == [] then [""]
    else
      var rest := Split(s[1..], sep);
      if s[0] == sep then [""] + rest else [[s[0]] + rest[0]] + rest[1..]
  }

  /** Joining the parts with the separator gives back the string. */
  lemma {:induction false} JoinSplit(s: string, sep: char)
    ensures JoinWith([sep], Split(s, sep)) == s
  {
    if s != [] {
      var rest := Split(s[1..], sep);
      JoinSplit(s[1..], sep);
      if s[0] == sep {
        assert ([""] + rest)[1..] == rest;
        assert s == [s[0]] + s[1..];
      } else if |rest| == 1 {
        assert s == [s[0]] + s[1..];
      } else {
        var parts := [[s[0]] + rest[0]] + rest[1..];
        assert parts[1..] == rest[1..];
        assert s == [s[0]] + s[1..];
      }
    }
  }

  /** A string without the separator extends the first part. */
  lemma {:induction false} SplitPrefix(a: string, t: string, sep: char)
    requires sep !in a
    ensures Split(a + t, sep) == [a + Split(t, sep)[0]] + Split(t, sep)[1..]
  {
    if a != [] {
      assert (a + t)[0] == a[0] && (a + t)[1..] == a[1..] + t;
      assert a[0] in a;
      assert forall c :: c in a[1..] ==> c in a;
      SplitPrefix(a[1..], t, sep);
      var st := Split(t, sep);
      var rest := Split(a[1..] + t, sep);
      assert rest[0] == a[1..] + st[0] && rest[1..] == st[1..];
      assert Split(a + t, sep) == [[a[0]] + rest[0]] + rest[1..];
      assert [a[0]] + (a[1..] + st[0]) == a + st[0];
    } else {
      var st := Split(t, sep);
      assert a + t == t && a + st[0] == st[0];
      assert st == [st[0]] + st[1..];
    }
  }

  /** Splitting parts joined by a separator none of them contains gives back the parts. */
  lemma {:induction false} SplitJoin(parts: seq<string>, sep: char)
    requires |parts| >= 1
    requires forall i :: 0 <= i < |parts| ==> sep !in parts[i]
    ensures Split(JoinWith([sep], parts), sep) == parts
  {
    if |parts| == 1 {
      SplitPrefix(parts[0], "", sep);
      assert parts[0] + "" == parts[0];
    } else {
      var tail := JoinWith([sep], parts[1..]);
      SplitJoin(parts[1..], sep);
      SplitPrefix(parts[0], [sep] + tail, sep);
      assert ([sep] + tail)[1..] == tail;
      assert parts[0] + ([sep] + tail) == parts[0] + [sep] + tail;
      var st := Split([sep] + tail, sep);
      assert st == [""] + parts[1..];
      assert st[0] == "" && st[1..] == parts[1..];
      assert parts[0] + "" == parts[0];
      assert parts == [parts[0]] + parts[1..];
    }
  }
}

/** POSIX path operations of Python's `os.path`. */
module Paths {
  /** The position just after the last '/' of `p`, or 0 if there is none. */
  function SlashEnd(p: string): (k: nat)
    ensures k <= |p|
    ensures k > 0 ==> p[k - 1] == '/'
    ensures forall j :: k <= j < |p| ==> p[j] != '/'
  {
    if p == [] then 0
    else if p[|p| - 1] == '/' then |p|
    else SlashEnd(p[..|p| - 1])
  }

  predicate AllSlashes(s: string) {
    forall c :: c in s ==> c == '/'
  }

  function RStripSlashes(s: string): string {
    if s != [] && s[|s| - 1] == '/' then RStripSlashes(s[..|s| - 1]) else s
  }

  /** `os.path.join(dir, name)` for two components. */
  function Join(dir: string, name: string): string {
    if name != [] && name[0] == '/' then name
    else if dir == [] || dir[|dir| - 1] == '/' then dir + name
    else dir + "/" + name
  }

  /** `os.path.basename(p)`. */
  function Basename(p: string): (r: string)
    ensures '/' !in r
  {
    p[SlashEnd(p)..]
  }

  /** `os.path.dirname(p)`. */
  function Dirname(p: string): string {
    var head := p[..SlashEnd(p)];
    if head != [] && !AllSlashes(head) then RStripSlashes(head) else head
  }

  lemma {:induction false} SlashEndNoSlash(prefix: string, name: string)
    requires '/' !in name
    requires prefix == [] || prefix[|prefix| - 1] == '/'
    ensures SlashEnd(prefix + name) == |prefix|
    decreases |name|
  {
    if name == [] {
      assert prefix + name == prefix;
    } else {
      var init := name[..|name| - 1];
      assert (prefix + name)[..|prefix + name| - 1] == prefix + init;
      assert name[|name| - 1] in name;
      SlashEndNoSlash(prefix, init);
    }
  }

  /** A file name joined to a directory is recovered by `basename`. */
  lemma BasenameJoin(dir: string, name: string)
    requires '/' !in name
    ensures Basename(Join(dir, name)) == name
  {
    assert name != [] ==> name[0] in name;
    if dir == [] || dir[|dir| - 1] == '/' {
      SlashEndNoSlash(dir, name);
      assert (dir + name)[|dir|..] == name;
    } else {
      SlashEndNoSlash(dir + "/", name);
      assert (dir + "/" + name)[|dir| + 1..] == name;
    }
  }

  /** A directory without a trailing slash is recovered by `dirname`. */
  lemma DirnameJoin(dir: string, name: string)
    requires '/' !in name
    requires dir == [] || dir[|dir| - 1] != '/'
    ensures Dirname(Join(dir, name)) == dir
  {
    assert name != [] ==> name[0] in name;
    if dir == [] {
      SlashEndNoSlash(dir, name);
      assert Join(dir, name) == name;
    } else {
      var head := dir + "/";
      var p := head + name;
      assert Join(dir, name) == p;
      SlashEndNoSlash(head, name);
      assert p[..SlashEnd(p)] == head;
      assert dir[|dir| - 1] in head;
      assert !AllSlashes(head);
      assert head[..|head| - 1] == dir;
      assert RStripSlashes(head) == RStripSlashes(dir);
      assert RStripSlashes(dir) == dir;
    }
  }
}

/** The Windows path operations of Python's `ntpath`, as far as the Windows installer uses them. */
module NtPaths {
  /** `\` and `/` both separate Windows path components. */
  predicate IsNtSep(c: char) {
    c == '\\' || c == '/'
  }

  predicate NoNtSep(s: string) {
    forall c :: c in s ==> !IsNtSep(c)
  }

  /** `p` starts with a drive such as `C:` (`ntpath.splitdrive`; UNC shares are not modelled). */
  predicate HasDrive(p: string) {
    |p| >= 2 && !IsNtSep(p[0]) && p[1] == ':'
  }

  /** The position just after the last separator of `p`, or 0 if there is none. */
  function NtSepEnd(p: string): (k: nat)
    ensures k <= |p|
    ensures k > 0 ==> IsNtSep(p[k - 1])
    ensures forall j :: k <= j < |p| ==> !IsNtSep(p[j])
  {
    if p == [] then 0
    else if IsNtSep(p[|p| - 1]) then |p|
    else NtSepEnd(p[..|p| - 1])
  }

  /** `ntpath.basename(p)`: what follows the drive and the last separator. */
  function NtBasename(p: string): (r: string)
    ensures NoNtSep(r)
  {
    var k := NtSepEnd(p);
    if HasDrive(p) && k < 2 then p[2..] else p[k..]
  }

  /**
   * `ntpath.join(dir, name)` for a name without separators: `\` goes between
   * them unless `dir` is empty, ends in a separator or is a bare drive; a name
   * with a drive of its own replaces `dir`.
   */
  function NtJoin(dir: string, name: string): string
    requires NoNtSep(name)
  {
    if HasDrive(name) then name
    else if dir == [] || IsNtSep(dir[|dir| - 1]) || (HasDrive(dir) && |dir| == 2) then dir + name
    else dir + "\\" + name
  }

  lemma {:induction false} NtSepEndNoSep(prefix: string, name: string)
    requires NoNtSep(name)
    requires prefix == [] || IsNtSep(prefix[|prefix| - 1]) || (HasDrive(prefix) && |prefix| == 2)
    ensures NtSepEnd(prefix + name) == if prefix != [] && IsNtSep(prefix[|prefix| - 1]) then |prefix| else 0
    decreases |name|
  {
    if name == [] {
      assert prefix + name == prefix;
      if HasDrive(prefix) && |prefix| == 2 && !IsNtSep(prefix[1]) {
        assert prefix[..1][..0] == [];
      }
    } else {
      var init := name[..|name| - 1];
      assert (prefix + name)[..|prefix + name| - 1] == prefix + init;
      assert name[|name| - 1] in name;
      forall c | c in init ensures !IsNtSep(c) { assert c in name; }
      NtSepEndNoSep(prefix, init);
    }
  }

  /** A file name joined to a directory is recovered by `basename`. */
  lemma NtBasenameJoin(dir: string, name: string)
    requires NoNtSep(name)
    ensures !HasDrive(name) ==> NtBasename(NtJoin(dir, name)) == name
  {
    if HasDrive(name) {
    } else if dir == [] || IsNtSep(dir[|dir| - 1]) || (HasDrive(dir) && |dir| == 2) {
      NtSepEndNoSep(dir, name);
      assert (dir + name)[|dir|..] == name;
      if dir == [] {
        assert dir + name == name;
      }
    } else {
      var head := dir + "\\";
      assert NtJoin(dir, name) == head + name;
      NtSepEndNoSep(head, name);
      assert (head + name)[|head|..] == name;
    }
  }
}

/** Sequence helpers: duplicate-freedom and Python's de-duplication through a set. */
module Seqs {
  import opened Wrappers

  predicate NoDuplicates<T(==)>(s: seq<T>) {
    forall i, j :: 0 <= i < j < |s| ==> s[i] != s[j]
  }

  /** Position `i` is the first element of `xs` satisfying `p`. */
  predicate FirstAt<T>(xs: seq<T>, p: T -> bool, i: int) {
    0 <= i < |xs| && p(xs[i]) && forall j :: 0 <= j < i ==> !p(xs[j])
  }

  /** A scan with early return: the first element of `xs` satisfying `p`. */
  function FirstWhere<T(==)>(xs: seq<T>, p: T -> bool): (r: Option<T>)
    ensures r.None? <==> forall i :: 0 <= i < |xs| ==> !p(xs[i])
    ensures r.Some? ==> exists i :: FirstAt(xs, p, i) && xs[i] == r.value
  {
    if xs == [] then None
    else if p(xs[0]) then
      assert FirstAt(xs, p, 0);
      Some(xs[0])
    else
      var r := FirstWhere(xs[1..], p);
      if r.Some? then
        var i :| FirstAt(xs[1..], p, i) && xs[1..][i] == r.value;
        assert FirstAt(xs, p, i + 1);
        r
      else
        assert forall i :: 1 <= i < |xs| ==> xs[i] == xs[1..][i - 1];
        r
  }

  /** The scan's result is determined by the first satisfying position. */
  lemma FirstWhereAt<T>(xs: seq<T>, p: T -> bool, i: int)
    requires FirstAt(xs, p, i)
    ensures FirstWhere(xs, p) == Some(xs[i])
  {
    var r := FirstWhere(xs, p);
    var k :| FirstAt(xs, p, k) && xs[k] == r.value;
  }

  /** A loop appending `y` for each element `x` of `xs` with `f(x) == Some(y)`, in order. */
  function FilterMap<A, B>(xs: seq<A>, f: A -> Option<B>): (r: seq<B>)
    ensures |r| <= |xs|
  {
    if xs == [] then []
    else
      var init := FilterMap(xs[..|xs| - 1], f);
      match f(xs[|xs| - 1])
      case None => init
      case Some(y) => init + [y]
  }

  /** A position of `xs` whose element `f` keeps as `y`. */
  ghost predicate KeptAt<A, B>(xs: seq<A>, f: A -> Option<B>, i: int, y: B) {
    0 <= i < |xs| && f(xs[i]) == Some(y)
  }

  /** The result holds exactly the values `f` keeps from the elements of `xs`. */
  lemma {:induction false} FilterMapMembers<A, B>(xs: seq<A>, f: A -> Option<B>, y: B)
    ensures y in FilterMap(xs, f) <==> exists i :: KeptAt(xs, f, i, y)
  {
    if xs != [] {
      var init := xs[..|xs| - 1];
      FilterMapMembers(init, f, y);
      if exists i :: KeptAt(xs, f, i, y) {
        var i :| KeptAt(xs, f, i, y);
        if i < |init| {
          assert KeptAt(init, f, i, y);
        }
      }
      if exists i :: KeptAt(init, f, i, y) {
        var i :| KeptAt(init, f, i, y);
        assert KeptAt(xs, f, i, y);
      }
      if f(xs[|xs| - 1]) == Some(y) {
        assert KeptAt(xs, f, |xs| - 1, y);
      }
    }
  }

  /** The values an optional result contributes: none or one. */
  function Values<B>(o: Option<B>): seq<B> {
    match o
    case None => []
    case Some(y) => [y]
  }

  /** One more loop step of `FilterMap`. */
  lemma FilterMapStep<A, B>(xs: seq<A>, f: A -> Option<B>, j: int)
    requires 0 <= j < |xs|
    ensures FilterMap(xs[..j + 1], f) == FilterMap(xs[..j], f) + Values(f(xs[j]))
  {
    assert xs[..j + 1][..j] == xs[..j];
  }

  /** A loop extending the result by `f(x)` for each element `x` of `xs`, in order. */
  function ConcatMap<A, B>(xs: seq<A>, f: A -> seq<B>): seq<B> {
    if xs == [] then [] else ConcatMap(xs[..|xs| - 1], f) + f(xs[|xs| - 1])
  }

  /** One more loop step of `ConcatMap`. */
  lemma ConcatMapStep<A, B>(xs: seq<A>, f: A -> seq<B>, j: int)
    requires 0 <= j < |xs|
    ensures ConcatMap(xs[..j + 1], f) == ConcatMap(xs[..j], f) + f(xs[j])
  {
    assert xs[..j + 1][..j] == xs[..j];
  }

  /** A position of `xs` whose part contains `y`. */
  ghost predicate PartAt<A, B>(xs: seq<A>, f: A -> seq<B>, i: int, y: B) {
    0 <= i < |xs| && y in f(xs[i])
  }

  /** The result holds exactly the members of the parts. */
  lemma {:induction false} ConcatMapMembers<A, B>(xs: seq<A>, f: A -> seq<B>, y: B)
    ensures y in ConcatMap(xs, f) <==> exists i :: PartAt(xs, f, i, y)
  {
    if xs != [] {
      var init := xs[..|xs| - 1];
      ConcatMapMembers(init, f, y);
      if exists i :: PartAt(xs, f, i, y) {
        var i :| PartAt(xs, f, i, y);
        if i < |init| {
          assert PartAt(init, f, i, y);
        }
      }
      if exists i :: PartAt(init, f, i, y) {
        var i :| PartAt(init, f, i, y);
        assert PartAt(xs, f, i, y);
      }
      if y in f(xs[|xs| - 1]) {
        assert PartAt(xs, f, |xs| - 1, y);
      }
    }
  }

  /** `list(set(xs))`; the order Python's set happens to produce is replaced by first occurrence. */
  function Dedup(xs: seq<string>): (r: seq<string>)
    ensures NoDuplicates(r)
    ensures forall x :: x in r <==> x in xs
    ensures |r| <= |xs|
  {
    if xs == [] then []
    else
      var init := Dedup(xs[..|xs| - 1]);
      var last := xs[|xs| - 1];
      assert forall x :: x in xs <==> x in xs[..|xs| - 1] || x == last;
      if last in init then init else init + [last]
  }
}

/** Python dicts with string keys, kept as their items in insertion order. */
module Dicts {
  import opened Wrappers
  import opened Seqs

  type Dict<V> = seq<(string, V)>

  function Keys<V>(d: Dict<V>): (ks: seq<string>)
    ensures |ks| == |d|
    ensures forall i :: 0 <= i < |d| ==> ks[i] == d[i].0
  {
    if d == [] then [] else [d[0].0] + Keys(d[1..])
  }

  /** `d.get(k)`: the value of the first item with key `k`. */
  function Get<V>(d: Dict<V>, k: string): (r: Option<V>)
    ensures r.None? <==> k !in Keys(d)
    ensures r.Some? ==> (k, r.value) in d
  {
    if d == [] then None
    else if d[0].0 == k then Some(d[0].1)
    else
      assert forall x :: x in Keys(d) <==> x == d[0].0 || x in Keys(d[1..]);
      Get(d[1..], k)
  }

  /** `d[k] = v`: replaces the value in place when `k` is a key, appends the item otherwise. */
  function Put<V>(d: Dict<V>, k: string, v: V): (r: Dict<V>)
    ensures Keys(r) == if k in Keys(d) then Keys(d) else Keys(d) + [k]
  {
    if d == [] then [(k, v)]
    else if d[0].0 == k then [(k, v)] + d[1..]
    else
      var rest := Put(d[1..], k, v);
      assert ([d[0]] + rest)[1..] == rest;
      [d[0]] + rest
  }

  /** After `d[k] = v`, `k` looks up `v` and every other key looks up what it did before. */
  lemma {:induction false} PutGet<V>(d: Dict<V>, k: string, v: V, x: string)
    ensures Get(Put(d, k, v), x) == if x == k then Some(v) else Get(d, x)
  {
    if d != [] && d[0].0 != k {
      var rest := Put(d[1..], k, v);
      assert Put(d, k, v) == [d[0]] + rest;
      assert ([d[0]] + rest)[1..] == rest;
      PutGet(d[1..], k, v, x);
    }
  }

  lemma PutKeysDistinct<V>(d: Dict<V>, k: string, v: V)
    requires NoDuplicates(Keys(d))
    ensures NoDuplicates(Keys(Put(d, k, v)))
  {
  }
}
