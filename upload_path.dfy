/**
 * Uploading a content file to object storage: the storage key built from the
 * folder, the upload time and the file's extension, and the outcome of the
 * upload as an optional public URL.
 */
module UploadPath {
  import opened Wrappers
  import opened Browser

  /** `s.split(".")`: the pieces of `s` between the dots, in order. */
  function Split(s: string): (parts: seq<string>)
    ensures |parts| >= 1
    ensures forall p :: p in parts ==> '.' !in p
    decreases |s|
  {
    if s == [] then [""]
    else if s[0] == '.' then [""] + Split(s[1..])
    else
      var rest := Split(s[1..]);
      assert '.' !in rest[0];
      [[s[0]] + rest[0]] + rest[1..]
  }

  /** `parts.join(".")`. */
  function Join(parts: seq<string>): string
    requires |parts| >= 1
  {
    if |parts| == 1 then parts[0] else parts[0] + "." + Join(parts[1..])
  }

  /** `name.split(".").pop()`: the last dot-separated segment of a file name. */
  function Ext(name: string): (ext: string)
    ensures '.' !in ext
  {
    var parts := Split(name);
    parts[|parts| - 1]
  }

  /** Splitting and joining again gives back the original string. */
  lemma {:induction false} JoinSplit(s: string)
    ensures Join(Split(s)) == s
    decreases |s|
  {
    if s == [] {
    } else if s[0] == '.' {
      JoinSplit(s[1..]);
      assert ([""] + Split(s[1..]))[1..] == Split(s[1..]);
    } else {
      JoinSplit(s[1..]);
      var rest := Split(s[1..]);
      var parts := [[s[0]] + rest[0]] + rest[1..];
      assert Split(s) == parts;
      if |rest| == 1 {
        assert Join(parts) == [s[0]] + rest[0];
      } else {
        assert parts[1..] == rest[1..];
        assert Join(parts) == [s[0]] + rest[0] + "." + Join(rest[1..]);
      }
      assert s == [s[0]] + s[1..];
    }
  }

  /** Joining peels off the last piece after the last separator. */
  lemma {:induction false} JoinLast(parts: seq<string>)
    requires |parts| >= 2
    ensures Join(parts) == Join(parts[..|parts| - 1]) + "." + parts[|parts| - 1]
    decreases |parts|
  {
    var n := |parts|;
    if n > 2 {
      JoinLast(parts[1..]);
      assert parts[1..][..n - 2] == parts[..n - 1][1..];
      assert parts[1..][n - 2] == parts[n - 1];
    }
  }

  /** A string without a dot splits into itself alone. */
  lemma {:induction false} SplitNoDot(s: string)
    requires '.' !in s
    ensures Split(s) == [s]
    decreases |s|
  {
    if s != [] {
      assert forall c :: c in s[1..] ==> c in s;
      SplitNoDot(s[1..]);
      assert [s[0]] + s[1..] == s;
    }
  }

  /** Splitting around a dot splits each side separately. */
  lemma {:induction false} SplitAroundDot(a: string, b: string)
    ensures Split(a + "." + b) == Split(a) + Split(b)
    decreases |a|
  {
    if a == [] {
      assert a + "." + b == "." + b;
      assert ("." + b)[1..] == b;
    } else {
      var s := a + "." + b;
      assert s[0] == a[0];
      assert s[1..] == a[1..] + "." + b;
      SplitAroundDot(a[1..], b);
      if a[0] != '.' {
        var rest := Split(a[1..]);
        assert Split(s[1..]) == rest + Split(b);
        assert (rest + Split(b))[0] == rest[0];
        assert (rest + Split(b))[1..] == rest[1..] + Split(b);
      }
    }
  }

  /**
   * The extension is the part after the last dot: a name without a dot is
   * its own extension, and otherwise the extension is the dot-free suffix
   * that a dot precedes.
   */
  lemma {:induction false} ExtIsLastSegment(name: string)
    ensures Ext(name) == name <==> '.' !in name
    ensures '.' in name ==>
      |Ext(name)| < |name| &&
      name[|name| - |Ext(name)| - 1] == '.' &&
      name[|name| - |Ext(name)|..] == Ext(name)
  {
    var parts := Split(name);
    JoinSplit(name);
    if |parts| >= 2 {
      JoinLast(parts);
      var prefix := Join(parts[..|parts| - 1]);
      assert name == prefix + "." + Ext(name);
      assert name[|prefix|] == '.';
      assert name[|prefix| + 1..] == Ext(name);
    }
  }

  /** The extension only depends on what follows a dot. */
  lemma ExtAfterDot(a: string, b: string)
    ensures Ext(a + "." + b) == Ext(b)
  {
    SplitAroundDot(a, b);
  }

  /** The decimal digit for `d`. */
  function DigitChar(d: nat): (c: char)
    requires d < 10
    ensures '0' <= c <= '9'
  {
    (48 + d) as char
  }

  /** `String(n)` for a non-negative integer: its decimal digits without leading zeros. */
  function Decimal(n: nat): (s: string)
    ensures |s| >= 1
    ensures forall i :: 0 <= i < |s| ==> '0' <= s[i] <= '9'
    ensures |s| > 1 ==> s[0] != '0'
  {
    if n < 10 then [DigitChar(n)] else Decimal(n / 10) + [DigitChar(n % 10)]
  }

  /** Reads a string of decimal digits back as a number. */
  function ParseDecimal(s: string): nat
    requires forall i :: 0 <= i < |s| ==> '0' <= s[i] <= '9'
  {
    if s == [] then 0
    else ParseDecimal(s[..|s| - 1]) * 10 + (s[|s| - 1] as int - 48)
  }

  /** Reading the decimal form of a number gives the number back. */
  lemma {:induction false} ParseDecimalInverts(n: nat)
    ensures ParseDecimal(Decimal(n)) == n
  {
    if n >= 10 {
      ParseDecimalInverts(n / 10);
      var s := Decimal(n);
      assert s[..|s| - 1] == Decimal(n / 10);
    }
  }

  /** Distinct times have distinct decimal forms. */
  lemma DecimalInjective(a: nat, b: nat)
    requires Decimal(a) == Decimal(b)
    ensures a == b
  {
    ParseDecimalInverts(a);
    ParseDecimalInverts(b);
  }

  /** The storage key `${folder}/${Date.now()}.${ext}`, with the clock reading passed in. */
  function StoragePath(folder: string, now: nat, fileName: string): (path: string)
    ensures |path| > |folder| && path[..|folder| + 1] == folder + "/"
  {
    folder + "/" + Decimal(now) + "." + Ext(fileName)
  }

  /** The stored object keeps the extension of the uploaded file. */
  lemma PathKeepsExtension(folder: string, now: nat, fileName: string)
    ensures Ext(StoragePath(folder, now, fileName)) == Ext(fileName)
  {
    ExtAfterDot(folder + "/" + Decimal(now), Ext(fileName));
    SplitNoDot(Ext(fileName));
  }

  /** In `d + "." + e` with a dot-free `d`, the first dot sits right after `d`. */
  lemma FirstDotAfter(d: string, e: string)
    requires '.' !in d
    ensures (d + "." + e)[|d|] == '.'
    ensures forall i :: 0 <= i < |d| ==> (d + "." + e)[i] != '.'
  {
  }

  /** Two dot-free pieces joined by one dot can be told apart again. */
  lemma DotJoinUnique(d1: string, e1: string, d2: string, e2: string)
    requires '.' !in d1 && '.' !in d2
    requires d1 + "." + e1 == d2 + "." + e2
    ensures d1 == d2 && e1 == e2
  {
    var s := d1 + "." + e1;
    FirstDotAfter(d1, e1);
    FirstDotAfter(d2, e2);
    assert |d1| == |d2|;
    assert d1 == s[..|d1|] == d2;
    assert e1 == s[|d1| + 1..] == e2;
  }

  /**
   * Within one folder the key identifies exactly the upload millisecond and
   * the file's extension: two uploads collide if and only if they happen in
   * the same millisecond with the same extension.
   */
  lemma PathCollidesIff(folder: string, t1: nat, name1: string, t2: nat, name2: string)
    ensures StoragePath(folder, t1, name1) == StoragePath(folder, t2, name2) <==>
            t1 == t2 && Ext(name1) == Ext(name2)
  {
    var k1 := Decimal(t1) + "." + Ext(name1);
    var k2 := Decimal(t2) + "." + Ext(name2);
    var p1 := StoragePath(folder, t1, name1);
    var p2 := StoragePath(folder, t2, name2);
    assert p1 == folder + "/" + k1;
    assert p2 == folder + "/" + k2;
    if p1 == p2 {
      assert k1 == p1[|folder| + 1..] == k2;
      assert '.' !in Decimal(t1) && '.' !in Decimal(t2);
      DotJoinUnique(Decimal(t1), Ext(name1), Decimal(t2), Ext(name2));
      DecimalInjective(t1, t2);
    }
  }

  /**
   * `uploadToSupabase(file, folder)`: no file gives no URL; otherwise the file
   * is uploaded under its key and, when the storage reports no error, the
   * public URL of that key is returned. `accepts` stands for the storage
   * upload succeeding and `publicUrl` for the URL the storage assigns.
   */
  function UploadToSupabase(file: Option<File>, folder: string, now: nat,
                            accepts: (string, File) -> bool, publicUrl: string -> string): (url: Option<string>)
    ensures url.Some? <==>
      file.Some? && accepts(StoragePath(folder, now, file.value.name), file.value)
    ensures url.Some? ==> url.value == publicUrl(StoragePath(folder, now, file.value.name))
  {
    if file.None? then None
    else
      var path := StoragePath(folder, now, file.value.name);
      if !accepts(path, file.value) then None else Some(publicUrl(path))
  }
}
