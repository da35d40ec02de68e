/** Where a captured frame is written: OutputDir / Timestamp / (Name + ".png"),
    built with the engine's path-append operator on strings. */
module CapturePaths {

  /** The output directory fixed by the capturer's constructor. */
  const OutputDir: string := "D:/Windows/UE4/StereoCaptureRender/Captures"

  predicate IsSeparator(c: char)
  {
    c == '/' || c == '\\'
  }

  predicate NoSeparators(s: string)
  {
    forall i :: 0 <= i < |s| ==> !IsSeparator(s[i])
  }

  /** The string path-append operator `a / b`: one '/' is inserted between the
      parts unless `a` is empty, `a` already ends in a separator, or `b`
      starts with '/'. */
  function PathAppend(a: string, b: string): (r: string)
    ensures r == a + b || r == a + "/" + b
  {
    if |a| > 0 && !IsSeparator(a[|a| - 1]) && (|b| == 0 || b[0] != '/') then a + "/" + b else a + b
  }

  /** The parts survive the append: `a` is a prefix, `b` a suffix, and the
      only character added is the separator, exactly when one is needed. */
  lemma PathAppendLayout(a: string, b: string)
    ensures var r := PathAppend(a, b);
      && (|r| == |a| + |b| || |r| == |a| + |b| + 1)
      && r[..|a|] == a
      && r[|r| - |b|..] == b
      && (|r| == |a| + |b| + 1 <==> |a| > 0 && !IsSeparator(a[|a| - 1]) && (|b| == 0 || b[0] != '/'))
      && (|r| == |a| + |b| + 1 ==> r[|a|] == '/')
  {
  }

  /** The file a frame called `name` is saved to, under the session timestamp. */
  function FramePath(timestamp: string, name: string): (p: string)
    ensures |OutputDir| + |timestamp| + |name| + 4 <= |p| <= |OutputDir| + |timestamp| + |name| + 6
  {
    PathAppend(PathAppend(OutputDir, timestamp), name + ".png")
  }

  /** Every frame lands under the output directory: OutputDir followed by a
      separator starts the path. The file is named after the frame with a
      ".png" extension, and, unless the name itself starts with '/', a
      separator precedes that file name. */
  lemma FramePathLayout(timestamp: string, name: string)
    ensures var p := FramePath(timestamp, name);
      && |p| >= |OutputDir| + |timestamp| + |name| + 4
      && p[..|OutputDir| + 1] == OutputDir + "/"
      && p[|p| - |name| - 4..] == name + ".png"
      && ((|name| == 0 || name[0] != '/') ==> IsSeparator(p[|p| - |name| - 5]))
  {
    var dir := PathAppend(OutputDir, timestamp);
    PathAppendLayout(OutputDir, timestamp);
    assert |dir| > |OutputDir|;
    assert dir[|OutputDir|] == '/';
    var file := name + ".png";
    var p := PathAppend(dir, file);
    PathAppendLayout(dir, file);
    assert p[..|OutputDir| + 1] == p[..|dir|][..|OutputDir| + 1];
    if |name| == 0 || name[0] != '/' {
      assert file[0] != '/' by {
        if |name| > 0 { assert file[0] == name[0]; }
      }
    }
  }

  /** For a non-empty timestamp without separators, and a name that does not
      start with '/', the path is the plain concatenation of the three parts
      with '/' between them. */
  lemma FramePathShape(timestamp: string, name: string)
    requires |timestamp| > 0 && NoSeparators(timestamp)
    requires |name| == 0 || name[0] != '/'
    ensures FramePath(timestamp, name) == OutputDir + "/" + timestamp + "/" + name + ".png"
  {
    var file := name + ".png";
    assert file[0] != '/' by {
      if |name| > 0 { assert file[0] == name[0]; }
    }
    var dir := PathAppend(OutputDir, timestamp);
    assert dir == OutputDir + "/" + timestamp;
    assert !IsSeparator(dir[|dir| - 1]) by {
      assert dir[|dir| - 1] == timestamp[|timestamp| - 1];
    }
  }

  /** The two frames of one capture never overwrite each other. */
  lemma LeftAndRightPathsDiffer(timestamp: string)
    ensures FramePath(timestamp, "Left") != FramePath(timestamp, "Right")
  {
    var p, q := FramePath(timestamp, "Left"), FramePath(timestamp, "Right");
    assert p[|p| - 8..][0] == 'L';
    assert q[|q| - 9..][1] == 'i';
  }

  /** Two arms with different separator-free timestamps write into different
      directories, so frames of different sessions never collide. */
  lemma TimestampsSeparateFrames(t1: string, t2: string, name: string)
    requires |t1| > 0 && NoSeparators(t1)
    requires |t2| > 0 && NoSeparators(t2)
    requires |name| == 0 || name[0] != '/'
    requires FramePath(t1, name) == FramePath(t2, name)
    ensures t1 == t2
  {
    FramePathShape(t1, name);
    FramePathShape(t2, name);
    var prefix, rest := OutputDir + "/", "/" + name + ".png";
    var p1, p2 := prefix + t1 + rest, prefix + t2 + rest;
    assert p1 == FramePath(t1, name) && p2 == FramePath(t2, name);
    if |t1| < |t2| {
      assert false;
    } else if |t2| < |t1| {
      assert false;
    }
    assert t1 == p1[|prefix|..|prefix| + |t1|];
    assert t2 == p2[|prefix|..|prefix| + |t2|];
  }
}
