/**
 * Windows path joining and splitting as `System.IO.Path` does it, the way the
 * modelled code builds the paths of container directories and executables.
 */
module WinPaths {
  /** A directory separator: the primary '\' or the alternative '/'. */
  predicate IsSeparator(c: char)
  {
    c == '\\' || c == '/'
  }

  /** A character after which a name starts: a separator or the volume separator ':'. */
  predicate EndsPart(c: char)
  {
    IsSeparator(c) || c == ':'
  }

  /** `Path.IsPathRooted`: a leading separator, or a drive letter followed by ':'. */
  predicate IsRooted(p: string)
  {
    (|p| >= 1 && IsSeparator(p[0])) || (|p| >= 2 && p[1] == ':')
  }

  /** A single name: no separator and no ':' inside it. */
  predicate IsPlainName(s: string)
  {
    forall i :: 0 <= i < |s| ==> !EndsPart(s[i])
  }

  /**
   * `Path.Combine(path1, path2)`: an empty second part gives the first, an empty
   * first part or a rooted second part gives the second; otherwise the two are
   * joined, with a '\' between them unless the first already ends a part.
   */
  function Combine(path1: string, path2: string): (r: string)
    ensures |path2| > 0 ==> |r| >= |path2| && r[|r| - |path2|..] == path2
    ensures !IsRooted(path2) ==> |r| >= |path1| && r[..|path1|] == path1
    ensures IsRooted(path2) && |path2| > 0 ==> r == path2
  {
    if |path2| == 0 then path1
    else if |path1| == 0 then path2
    else if IsRooted(path2) then path2
    else if EndsPart(path1[|path1| - 1]) then path1 + path2
    else path1 + "\\" + path2
  }

  /** `Path.GetFileName`: what follows the last separator or ':'. */
  function FileName(p: string): (r: string)
    ensures |r| <= |p|
  {
    if |p| == 0 || EndsPart(p[|p| - 1]) then ""
    else FileName(p[..|p| - 1]) + [p[|p| - 1]]
  }

  /** The file name is a plain name that ends the path. */
  lemma {:induction false} FileNameIsPlainSuffix(p: string)
    ensures var r := FileName(p); r == p[|p| - |r|..] && IsPlainName(r)
  {
    if |p| > 0 && !EndsPart(p[|p| - 1]) {
      var init := p[..|p| - 1];
      FileNameIsPlainSuffix(init);
      var r := FileName(init);
      assert r == init[|init| - |r|..];
      calc {
        FileName(p);
        r + [p[|p| - 1]];
        init[|init| - |r|..] + [p[|p| - 1]];
        { assert init[|init| - |r|..] == p[|p| - |r| - 1..|p| - 1]; }
        p[|p| - |r| - 1..];
      }
      var named := r + [p[|p| - 1]];
      assert IsPlainName(named) by {
        forall i | 0 <= i < |named|
          ensures !EndsPart(named[i])
        {
          if i < |r| {
            assert named[i] == r[i];
          }
        }
      }
    }
  }

  /** A character that does not end a part extends the file name. */
  lemma FileNameSnoc(s: string, c: char)
    requires !EndsPart(c)
    ensures FileName(s + [c]) == FileName(s) + [c]
  {
    assert (s + [c])[..|s|] == s;
  }

  /** A plain name placed after the end of a part is the file name of the whole. */
  lemma {:induction false} FileNameAfterPart(prefix: string, name: string)
    requires |prefix| == 0 || EndsPart(prefix[|prefix| - 1])
    requires IsPlainName(name)
    ensures FileName(prefix + name) == name
  {
    if |name| == 0 {
      assert prefix + name == prefix;
    } else {
      var init, last := name[..|name| - 1], name[|name| - 1];
      assert IsPlainName(init) && !EndsPart(last) by {
        forall i | 0 <= i < |init|
          ensures !EndsPart(init[i])
        {
          assert init[i] == name[i];
        }
      }
      FileNameAfterPart(prefix, init);
      FileNameSnoc(prefix + init, last);
      calc {
        FileName(prefix + name);
        { assert prefix + name == (prefix + init) + [last]; }
        FileName((prefix + init) + [last]);
        init + [last];
        { assert init + [last] == name; }
        name;
      }
    }
  }

  /** Combining a directory with a plain name gives a path whose file name is that name. */
  lemma CombineFileName(directory: string, name: string)
    requires |name| > 0 && IsPlainName(name)
    ensures FileName(Combine(directory, name)) == name
  {
    assert !IsRooted(name) by {
      assert !IsSeparator(name[0]);
      if |name| >= 2 {
        assert !EndsPart(name[1]);
      }
    }
    if |directory| == 0 {
      FileNameAfterPart("", name);
      assert "" + name == name;
    } else if EndsPart(directory[|directory| - 1]) {
      FileNameAfterPart(directory, name);
    } else {
      FileNameAfterPart(directory + "\\", name);
      assert directory + "\\" + name == (directory + "\\") + name;
    }
  }
}
