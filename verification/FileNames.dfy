/**
 The names of the receiver's files. Connection i of acceptor a is numbered a * nconnections + i, and
 counts its own files, so no two opens of one process share a name.
 */
module FileNames {
  import opened Basics
  import opened Decimal

  const MAX_PATH := 260

  /** `file-%zu-%zu.bin`. */
  function FileName(nconnection: nat, nfile: nat): string {
    "file-" + Text(nconnection) + "-" + Text(nfile) + ".bin"
  }

  /** The numbers `acceptor::listen` hands to the connections of acceptor `nacceptor`. */
  method NumberConnections(nacceptor: nat, nconnections: nat) returns (numbers: seq<nat>)
    ensures |numbers| == nconnections
    ensures forall i :: 0 <= i < nconnections ==> numbers[i] == nacceptor * nconnections + i
  {
    var nconnection := nacceptor * nconnections;
    numbers := [];
    for i := 0 to nconnections
      invariant |numbers| == i && nconnection == nacceptor * nconnections + i
      invariant forall j :: 0 <= j < i ==> numbers[j] == nacceptor * nconnections + j
    {
      numbers := numbers + [nconnection];
      nconnection := nconnection + 1;
    }
  }

  lemma NumbersAreDistinct(n: nat, a: nat, i: nat, b: nat, j: nat)
    requires i < n && j < n && a * n + i == b * n + j
    ensures a == b && i == j
  {
    if a < b {
      MulMonotone(a + 1, b, n);
    } else if b < a {
      MulMonotone(b + 1, a, n);
    }
  }

  lemma MulMonotone(x: nat, y: nat, n: nat)
    requires x <= y
    ensures x * n <= y * n
  {
  }

  /** Two digit strings ended by the same non-digit can only be read one way. */
  lemma DigitsEndOnce(s: string, t: string, stop: char, u: string, v: string)
    requires AllDigits(s) && AllDigits(t) && !IsDigit(stop)
    requires s + [stop] + u == t + [stop] + v
    ensures s == t && u == v
  {
    var x := s + [stop] + u;
    assert x[|s|] == stop && x[|t|] == stop;
    assert forall k :: 0 <= k < |s| ==> x[k] == s[k];
    assert forall k :: 0 <= k < |t| ==> x[k] == t[k];
    assert |s| == |t|;
    assert x[..|s|] == s && x[..|t|] == t && x[|s| + 1..] == u && x[|t| + 1..] == v;
  }

  lemma FileNameParts(c: nat, f: nat)
    ensures FileName(c, f) == "file-" + (Text(c) + ['-'] + (Text(f) + ['.'] + "bin"))
  {
  }

  lemma FileNameIsInjective(c: nat, f: nat, d: nat, g: nat)
    requires FileName(c, f) == FileName(d, g)
    ensures c == d && f == g
  {
    ValueOfText(c); ValueOfText(d); ValueOfText(f); ValueOfText(g);
    FileNameParts(c, f);
    FileNameParts(d, g);
    var bin, prefix := "bin", "file-";
    var u, v := Text(f) + ['.'] + bin, Text(g) + ['.'] + bin;
    var x, y := Text(c) + ['-'] + u, Text(d) + ['-'] + v;
    assert (prefix + x)[|prefix|..] == x && (prefix + y)[|prefix|..] == y;
    DigitsEndOnce(Text(c), Text(d), '-', u, v);
    DigitsEndOnce(Text(f), Text(g), '.', bin, bin);
    TextIsInjective(c, d);
    TextIsInjective(f, g);
  }

  /** `snprintf(pathname, MAX_PATH, "%s\\...")`. */
  function PathName(dir: string, name: string): string {
    var path := dir + "\\" + name;
    if |path| < MAX_PATH then path else path[..MAX_PATH - 1]
  }

  // Cut short.

  /** The name up to its extension. */
  function Stem(nconnection: nat, nfile: nat): string {
    "file-" + Text(nconnection) + "-" + Text(nfile)
  }

  const SIZE_MAX := 0xFFFF_FFFF_FFFF_FFFF

  /** The longest stem of two 64-bit numbers has 46 characters. */
  lemma StemIsShort(c: nat, f: nat)
    requires c <= SIZE_MAX && f <= SIZE_MAX
    ensures |Stem(c, f)| <= 46
  {
    assert SIZE_MAX < Pow10(20) by { PowersOfTen(); }
    TextIsShort(c, 20);
    TextIsShort(f, 20);
  }

  lemma PowersOfTen()
    ensures Pow10(20) == 100_000_000_000_000_000_000
  {
    assert Pow10(4) == 10_000;
    assert Pow10(8) == 10_000 * Pow10(4);
    assert Pow10(12) == 10_000 * Pow10(8);
    assert Pow10(16) == 10_000 * Pow10(12);
  }

  /** A name cut after its stem, or not at all, still tells the numbers. */
  lemma CutAfterStem(c: nat, f: nat, d: nat, g: nat, m: nat)
    requires |Stem(c, f)| <= m && |Stem(d, g)| <= m
    requires Cut(FileName(c, f), m) == Cut(FileName(d, g), m)
    ensures c == d && f == g
  {
    var x, y := Cut(FileName(c, f), m), Cut(FileName(d, g), m);
    CutKeepsStem(c, f, m);
    CutKeepsStem(d, g, m);
    if |Stem(c, f)| < |Stem(d, g)| {
      StemContinues(c, f, d, g, m);
    } else if |Stem(d, g)| < |Stem(c, f)| {
      StemContinues(d, g, c, f, m);
    }
    assert Stem(c, f) == x[..|Stem(c, f)|] == y[..|Stem(d, g)|] == Stem(d, g);
    assert FileName(c, f) == Stem(c, f) + ".bin" && FileName(d, g) == Stem(d, g) + ".bin";
    FileNameIsInjective(c, f, d, g);
  }

  function Cut(s: string, m: nat): string {
    if |s| <= m then s else s[..m]
  }

  lemma CutKeepsStem(c: nat, f: nat, m: nat)
    requires |Stem(c, f)| <= m
    ensures |Cut(FileName(c, f), m)| >= |Stem(c, f)|
    ensures Cut(FileName(c, f), m)[..|Stem(c, f)|] == Stem(c, f)
    ensures |Stem(c, f)| < m ==>
              |Cut(FileName(c, f), m)| > |Stem(c, f)| && Cut(FileName(c, f), m)[|Stem(c, f)|] == '.'
  {
    assert FileName(c, f) == Stem(c, f) + ".bin";
  }

  /** Where the shorter stem ends the longer one has no dot. */
  lemma StemContinues(c: nat, f: nat, d: nat, g: nat, m: nat)
    requires |Stem(c, f)| < |Stem(d, g)| <= m
    ensures Cut(FileName(c, f), m) != Cut(FileName(d, g), m)
  {
    CutKeepsStem(c, f, m);
    CutKeepsStem(d, g, m);
    var k := |Stem(c, f)|;
    NoDotInStem(d, g);
    assert Cut(FileName(d, g), m)[..|Stem(d, g)|][k] == Stem(d, g)[k];
  }

  lemma NoDotInStem(c: nat, f: nat)
    ensures '.' !in Stem(c, f)
  {
    ValueOfText(c);
    ValueOfText(f);
  }

  lemma PathIsCutName(dir: string, name: string)
    requires |dir| + 1 < MAX_PATH
    ensures PathName(dir, name) == (dir + "\\") + Cut(name, MAX_PATH - 2 - |dir|)
  {
    var whole := (dir + "\\") + name;
    if |whole| >= MAX_PATH {
      assert whole[..MAX_PATH - 1] == (dir + "\\") + name[..MAX_PATH - 2 - |dir|];
    }
  }

  lemma DirectoryOnly(dir: string, name: string)
    requires |dir| == MAX_PATH - 1
    ensures PathName(dir, name) == dir
  {
    assert (dir + "\\" + name)[..|dir|] == dir;
  }

  /** The longest stem that connections 0 to c and files 1 to f give. */
  lemma StemGrows(c: nat, f: nat, d: nat, g: nat)
    requires c <= d && f <= g
    ensures |Stem(c, f)| <= |Stem(d, g)|
  {
    TextGrows(c, d);
    TextGrows(f, g);
  }

  /** No two opens share a path in this directory, for `connections` connections that open up to `files` files each. */
  ghost predicate Distinct(dir: string, connections: nat, files: nat) {
    forall c: nat, f: nat, d: nat, g: nat ::
      (c < connections && d < connections && 1 <= f <= files && 1 <= g <= files
       && PathName(dir, FileName(c, f)) == PathName(dir, FileName(d, g)))
      ==> c == d && f == g
  }

  /**
   Exactly when paths are distinct: as soon as a connection opens a second file, all paths differ if and
   only if the longest stem fits, the one of the last file of the last connection.
   */
  lemma DistinctExactlyWhenTheStemsFit(dir: string, connections: nat, files: nat)
    requires |dir| < MAX_PATH && 0 < connections && 2 <= files
    ensures Distinct(dir, connections, files) <==> |dir| + 1 + |Stem(connections - 1, files)| < MAX_PATH
  {
    if |dir| + 1 + |Stem(connections - 1, files)| < MAX_PATH {
      forall c: nat, f: nat, d: nat, g: nat |
        c < connections && d < connections && 1 <= f <= files && 1 <= g <= files
        && PathName(dir, FileName(c, f)) == PathName(dir, FileName(d, g))
        ensures c == d && f == g
      {
        StemGrows(c, f, connections - 1, files);
        StemGrows(d, g, connections - 1, files);
        StemsFit(dir, c, f, d, g);
      }
    } else {
      var f, g := Collision(dir, connections - 1, files);
    }
  }

  /** Stems that fit tell the paths apart. */
  lemma StemsFit(dir: string, c: nat, f: nat, d: nat, g: nat)
    requires |dir| + 1 + |Stem(c, f)| < MAX_PATH && |dir| + 1 + |Stem(d, g)| < MAX_PATH
    requires PathName(dir, FileName(c, f)) == PathName(dir, FileName(d, g))
    ensures c == d && f == g
  {
    var m := MAX_PATH - 2 - |dir|;
    var front, x, y := dir + "\\", Cut(FileName(c, f), m), Cut(FileName(d, g), m);
    PathIsCutName(dir, FileName(c, f));
    PathIsCutName(dir, FileName(d, g));
    assert x == (front + x)[|front|..] && y == (front + y)[|front|..];
    CutAfterStem(c, f, d, g, m);
  }

  /**
   Over all acceptors, connections and successive opens: in one directory, two paths whose stems fit are
   equal only if they are for the same open of the same connection of the same acceptor.
   */
  lemma PathsAreDistinct(dir: string, n: nat, a: nat, i: nat, f: nat, b: nat, j: nat, g: nat, c: nat, d: nat)
    requires i < n && j < n && c == a * n + i && d == b * n + j
    requires |dir| + 1 + |Stem(c, f)| < MAX_PATH && |dir| + 1 + |Stem(d, g)| < MAX_PATH
    requires PathName(dir, FileName(c, f)) == PathName(dir, FileName(d, g))
    ensures a == b && i == j && f == g
  {
    StemsFit(dir, c, f, d, g);
    NumbersAreDistinct(n, a, i, b, j);
  }

  /**
   A stem that does not fit collides: with the file whose number is what is left of the digits, or, when
   no digit is left, already the first file with the second.
   */
  lemma Collision(dir: string, c: nat, files: nat) returns (f: nat, g: nat)
    requires |dir| < MAX_PATH && 2 <= files && |dir| + 1 + |Stem(c, files)| >= MAX_PATH
    ensures 1 <= f < g <= files && PathName(dir, FileName(c, f)) == PathName(dir, FileName(c, g))
  {
    if |dir| + 1 + |Front(c)| >= MAX_PATH - 1 {
      f, g := 1, 2;
      if |dir| == MAX_PATH - 1 {
        DirectoryOnly(dir, FileName(c, 1));
        DirectoryOnly(dir, FileName(c, 2));
      } else {
        var m := MAX_PATH - 2 - |dir|;
        CutsAgree(dir, c, 1, 2, Front(c)[..m]);
      }
    } else {
      var left := MAX_PATH - 2 - |dir| - |Front(c)|;
      g := files;
      f := TextPrefix(files, left);
      CutsAgree(dir, c, f, g, Front(c) + Text(f));
    }
  }

  /** A name up to its file number. */
  function Front(nconnection: nat): string {
    "file-" + Text(nconnection) + "-"
  }

  /** Two names that start alike as far as the path reaches. */
  lemma CutsAgree(dir: string, c: nat, f: nat, g: nat, start: string)
    requires |dir| + 1 + |start| == MAX_PATH - 1
    requires |FileName(c, f)| >= |start| && FileName(c, f)[..|start|] == start
    requires |FileName(c, g)| >= |start| && FileName(c, g)[..|start|] == start
    ensures PathName(dir, FileName(c, f)) == PathName(dir, FileName(c, g))
  {
    PathIsCutName(dir, FileName(c, f));
    PathIsCutName(dir, FileName(c, g));
  }

  /**
   A directory name of 251 characters, which `create` accepts, is too long for the first connection's
   first two files; one of 250 is not.
   */
  lemma FirstTwoFiles(dir: string)
    requires |dir| < MAX_PATH
    ensures PathName(dir, FileName(0, 1)) == PathName(dir, FileName(0, 2)) <==> |dir| > 250
  {
    assert |Stem(0, 1)| == |Stem(0, 2)| == 8;
    if |dir| > 250 {
      var f, g := Collision(dir, 0, 2);
    } else if PathName(dir, FileName(0, 1)) == PathName(dir, FileName(0, 2)) {
      StemsFit(dir, 0, 1, 0, 2);
    }
  }

  /** Up to 212 characters are enough for any 64-bit numbers. */
  lemma ShortDirectoriesAreSafe(dir: string, connections: nat, files: nat)
    requires |dir| <= 212 && connections <= SIZE_MAX + 1 && files <= SIZE_MAX
    ensures Distinct(dir, connections, files)
  {
    forall c: nat, f: nat, d: nat, g: nat |
      c < connections && d < connections && 1 <= f <= files && 1 <= g <= files
      && PathName(dir, FileName(c, f)) == PathName(dir, FileName(d, g))
      ensures c == d && f == g
    {
      StemIsShort(c, f);
      StemIsShort(d, g);
      StemsFit(dir, c, f, d, g);
    }
  }
}
