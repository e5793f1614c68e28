/**
 * Profile file names: `safe_filename` strips surrounding whitespace, turns every
 * character outside letters, digits, space, `_`, `.` and `-` into `_`, collapses
 * runs of whitespace to one space and keeps at most 80 characters;
 * `profile_path` puts the result, with ".json" appended, in the ".profiles"
 * directory.
 */
module Profile {
  import opened Wrappers

  const MaxNameLength: nat := 80
  const ProfilesDir: string := ".profiles"
  const Extension: string := ".json"

  /** Python's `str.isspace`, which `str.strip` uses to decide what to remove. */
  predicate IsSpace(c: char)
  {
    var n := c as int;
    (0x09 <= n <= 0x0D) || (0x1C <= n <= 0x20) || n == 0x85 || n == 0xA0 || n == 0x1680
    || (0x2000 <= n <= 0x200A) || n == 0x2028 || n == 0x2029 || n == 0x202F || n == 0x205F
    || n == 0x3000
  }

  /** A character the pattern `[^A-Za-z0-9 _.-]` leaves alone. */
  predicate SafeChar(c: char)
  {
    ('A' <= c <= 'Z') || ('a' <= c <= 'z') || ('0' <= c <= '9') || c == ' ' || c == '_' || c == '.' || c == '-'
  }

  ghost predicate AllSafe(s: string)
  {
    forall i :: 0 <= i < |s| ==> SafeChar(s[i])
  }

  ghost predicate NoDoubleSpaces(s: string)
  {
    forall i :: 0 <= i < |s| - 1 ==> !(s[i] == ' ' && s[i + 1] == ' ')
  }

  // ---------------------------------------------------------------------------
  // The four steps

  /** Leading whitespace removed: what is left is a suffix that starts with a non-space. */
  function TrimStart(s: string): (r: string)
    ensures |r| <= |s| && r == s[|s| - |r|..]
    ensures forall k :: 0 <= k < |s| - |r| ==> IsSpace(s[k])
    ensures |r| > 0 ==> !IsSpace(r[0])
    decreases |s|
  {
    if |s| > 0 && IsSpace(s[0]) then TrimStart(s[1..]) else s
  }

  /** Trailing whitespace removed: what is left is a prefix that ends with a non-space. */
  function TrimEnd(s: string): (r: string)
    ensures |r| <= |s| && r == s[..|r|]
    ensures forall k :: |r| <= k < |s| ==> IsSpace(s[k])
    ensures |r| > 0 ==> !IsSpace(r[|r| - 1])
    decreases |s|
  {
    if |s| > 0 && IsSpace(s[|s| - 1]) then TrimEnd(s[..|s| - 1]) else s
  }

  /** `str.strip()`. */
  function Strip(s: string): string
  {
    TrimEnd(TrimStart(s))
  }

  /** A string with no whitespace at either end is not changed by stripping. */
  lemma StripKeepsTrimmed(s: string)
    requires |s| > 0 ==> !IsSpace(s[0]) && !IsSpace(s[|s| - 1])
    ensures Strip(s) == s
  {
    assert TrimStart(s) == s;
    assert TrimEnd(s) == s;
  }

  /** `SAFE_CHARS.sub("_", ...)`: each character outside the safe set becomes one `_`. */
  function Substitute(s: string): (r: string)
    ensures |r| == |s|
    ensures forall i :: 0 <= i < |s| ==> r[i] == (if SafeChar(s[i]) then s[i] else '_')
    decreases |s|
  {
    if |s| == 0 then []
    else [if SafeChar(s[0]) then s[0] else '_'] + Substitute(s[1..])
  }

  /**
   * `re.sub(r"\s+", " ", ...)` on a string whose only whitespace is the space:
   * every run of spaces becomes a single space.
   */
  function Collapse(s: string): string
    decreases |s|
  {
    if |s| <= 1 then s
    else if s[0] == ' ' && s[1] == ' ' then Collapse(s[1..])
    else [s[0]] + Collapse(s[1..])
  }

  /** `name[:80]`. */
  function Truncate(s: string): string
  {
    if |s| <= MaxNameLength then s else s[..MaxNameLength]
  }

  function SafeFilename(name: string): string
  {
    Truncate(Collapse(Substitute(Strip(name))))
  }

  // ---------------------------------------------------------------------------
  // Properties of the steps

  /** Stripping removes whitespace at both ends only: the result is a slice of the input. */
  lemma StripIsSlice(s: string)
    ensures exists i, j :: 0 <= i <= j <= |s| && Strip(s) == s[i..j]
    ensures |Strip(s)| > 0 ==> !IsSpace(Strip(s)[0]) && !IsSpace(Strip(s)[|Strip(s)| - 1])
  {
    var t := TrimStart(s);
    var i := |s| - |t|;
    var r := TrimEnd(t);
    var j := i + |r|;
    PrefixOfSuffix(s, t, r, i);
    assert Strip(s) == r;
    assert 0 <= i <= j <= |s| && Strip(s) == s[i..j];
    if |r| > 0 {
      assert r[0] == t[0];
    }
  }

  /** A prefix `r` of the suffix `t` of `s` that starts at `i` is the slice of `s` from `i`. */
  lemma PrefixOfSuffix(s: string, t: string, r: string, i: nat)
    requires i <= |s| && t == s[i..] && |r| <= |t| && r == t[..|r|]
    ensures r == s[i..i + |r|]
  {
  }

  /** Collapsing keeps the first character. */
  lemma {:induction false} CollapseHead(s: string)
    requires |s| > 0
    ensures |Collapse(s)| > 0 && Collapse(s)[0] == s[0]
    decreases |s|
  {
    if |s| > 1 && s[0] == ' ' && s[1] == ' ' {
      CollapseHead(s[1..]);
    }
  }

  /** Collapsing leaves no two adjacent spaces. */
  lemma {:induction false} CollapseNoDoubleSpaces(s: string)
    ensures NoDoubleSpaces(Collapse(s))
    decreases |s|
  {
    if |s| > 1 {
      CollapseNoDoubleSpaces(s[1..]);
      if !(s[0] == ' ' && s[1] == ' ') {
        CollapseHead(s[1..]);
        var c := Collapse(s[1..]);
        assert Collapse(s) == [s[0]] + c;
        forall i | 0 <= i < |Collapse(s)| - 1
          ensures !(Collapse(s)[i] == ' ' && Collapse(s)[i + 1] == ' ')
        {
          if i > 0 {
            assert Collapse(s)[i] == c[i - 1] && Collapse(s)[i + 1] == c[i];
          }
        }
      }
    }
  }

  /** Every character collapsing keeps comes from the input, and it never lengthens. */
  lemma {:induction false} CollapseFromInput(s: string)
    ensures |Collapse(s)| <= |s|
    ensures forall c :: c in Collapse(s) ==> c in s
    decreases |s|
  {
    if |s| > 1 {
      CollapseFromInput(s[1..]);
      assert forall c :: c in s[1..] ==> c in s;
    }
  }

  /** A string without double spaces is left unchanged by collapsing. */
  lemma {:induction false} CollapseKeepsSingleSpaces(s: string)
    requires NoDoubleSpaces(s)
    ensures Collapse(s) == s
    decreases |s|
  {
    if |s| > 1 {
      assert !(s[0] == ' ' && s[1] == ' ');
      CollapseKeepsSingleSpaces(s[1..]);
      assert s == [s[0]] + s[1..];
    }
  }

  /**
   * Removing one space of a pair of adjacent spaces does not change the result:
   * a run of spaces collapses to the same single space as a shorter run.  With
   * `CollapseKeepsSingleSpaces` this fixes `Collapse` on every input.
   */
  lemma {:induction false} CollapseDropsRepeat(s: string, i: nat)
    requires i + 1 < |s| && s[i] == ' ' && s[i + 1] == ' '
    ensures Collapse(s) == Collapse(s[..i] + s[i + 1..])
    decreases i
  {
    var t := s[..i] + s[i + 1..];
    if i == 0 {
      assert t == s[1..];
    } else {
      assert t[0] == s[0] && |t| == |s| - 1 >= 2;
      assert t[1] == ' ' <==> s[1] == ' ';
      CollapseDropsRepeat(s[1..], i - 1);
      assert t[1..] == s[1..][..i - 1] + s[1..][i..];
    }
  }

  /** The non-space characters of `s`, in order. */
  function NonSpaces(s: string): string
    decreases |s|
  {
    if |s| == 0 then [] else (if s[0] == ' ' then [] else [s[0]]) + NonSpaces(s[1..])
  }

  /** Collapsing only removes spaces: the other characters stay, in order. */
  lemma {:induction false} CollapseKeepsNonSpaces(s: string)
    ensures NonSpaces(Collapse(s)) == NonSpaces(s)
    decreases |s|
  {
    if |s| > 1 {
      CollapseKeepsNonSpaces(s[1..]);
      if !(s[0] == ' ' && s[1] == ' ') {
        var c := Collapse(s[1..]);
        assert ([s[0]] + c)[1..] == c;
      }
    }
  }

  /** Substitution never creates a space and never removes one. */
  lemma SubstituteSpaces(s: string)
    ensures forall i :: 0 <= i < |s| ==> (Substitute(s)[i] == ' ' <==> s[i] == ' ')
    ensures AllSafe(Substitute(s))
  {
  }

  /** Text already made of safe characters is not changed by substitution. */
  lemma SubstituteKeepsSafe(s: string)
    requires AllSafe(s)
    ensures Substitute(s) == s
  {
  }

  // ---------------------------------------------------------------------------
  // Properties of `safe_filename`

  /**
   * The sanitised name: at most 80 characters, all of them safe, no two adjacent
   * spaces, and no leading space (the strip happens before substitution, so the
   * first character is a non-whitespace character or the `_` it became).
   */
  lemma SafeFilenameShape(name: string)
    ensures |SafeFilename(name)| <= MaxNameLength
    ensures AllSafe(SafeFilename(name))
    ensures NoDoubleSpaces(SafeFilename(name))
    ensures |SafeFilename(name)| > 0 ==> SafeFilename(name)[0] != ' '
  {
    var stripped := Strip(name);
    StripIsSlice(name);
    var substituted := Substitute(stripped);
    SubstituteSpaces(stripped);
    var collapsed := Collapse(substituted);
    CollapseFromInput(substituted);
    CollapseNoDoubleSpaces(substituted);
    var r := Truncate(collapsed);
    assert r == collapsed[..|r|];
    forall i | 0 <= i < |r| ensures SafeChar(r[i]) {
      assert r[i] in collapsed;
    }
    forall i | 0 <= i < |r| - 1 ensures !(r[i] == ' ' && r[i + 1] == ' ') {
      assert r[i] == collapsed[i] && r[i + 1] == collapsed[i + 1];
    }
    if |r| > 0 {
      CollapseHead(substituted);
      assert !IsSpace(stripped[0]);
    }
  }

  /**
   * A name that is already safe (safe characters, no whitespace at either end,
   * no double spaces, at most 80 characters) is its own file name.
   */
  lemma SafeNameIsKept(name: string)
    requires AllSafe(name) && NoDoubleSpaces(name) && |name| <= MaxNameLength
    requires |name| > 0 ==> !IsSpace(name[0]) && !IsSpace(name[|name| - 1])
    ensures SafeFilename(name) == name
  {
    StripKeepsTrimmed(name);
    SubstituteKeepsSafe(name);
    CollapseKeepsSingleSpaces(name);
  }

  /**
   * When the name has no whitespace at either end and no double spaces, the file
   * name is the name with each unsafe character replaced by one `_`, cut to 80
   * characters.
   */
  lemma OnlySubstitution(name: string)
    requires NoDoubleSpaces(name)
    requires |name| > 0 ==> !IsSpace(name[0]) && !IsSpace(name[|name| - 1])
    ensures SafeFilename(name) == Truncate(Substitute(name))
  {
    StripKeepsTrimmed(name);
    var s := Substitute(name);
    SubstituteSpaces(name);
    assert NoDoubleSpaces(s) by {
      forall i | 0 <= i < |s| - 1 ensures !(s[i] == ' ' && s[i + 1] == ' ') {
        assert !(name[i] == ' ' && name[i + 1] == ' ');
      }
    }
    CollapseKeepsSingleSpaces(s);
  }

  /**
   * Sanitising twice gives the same name when the first result does not end in
   * a space; a result cut at 80 characters just after a space does (see
   * `TruncationLeavesTrailingSpace`).
   */
  lemma IdempotentWithoutTrailingSpace(name: string)
    requires |SafeFilename(name)| > 0 ==> SafeFilename(name)[|SafeFilename(name)| - 1] != ' '
    ensures SafeFilename(SafeFilename(name)) == SafeFilename(name)
  {
    var r := SafeFilename(name);
    SafeFilenameShape(name);
    if |r| > 0 {
      assert SafeChar(r[0]) && SafeChar(r[|r| - 1]);
    }
    SafeNameIsKept(r);
  }

  /** A hundred `A`s are cut to eighty. */
  lemma LongNameExample(name: string)
    requires |name| == 100 && forall i :: 0 <= i < |name| ==> name[i] == 'A'
    ensures |SafeFilename(name)| == 80 && forall i :: 0 <= i < 80 ==> SafeFilename(name)[i] == 'A'
  {
    assert NoDoubleSpaces(name);
    OnlySubstitution(name);
    SubstituteKeepsSafe(name);
  }

  /** "Test Profile!@#" becomes "Test Profile___": one `_` per unsafe character. */
  lemma PunctuationExample(name: string)
    requires name == "Test Profile!@#"
    ensures SafeFilename(name) == "Test Profile___"
  {
    assert NoDoubleSpaces(name) by {
      forall i | 0 <= i < |name| - 1 ensures !(name[i] == ' ' && name[i + 1] == ' ') {
        assert i != 4 ==> name[i] != ' ';
      }
    }
    OnlySubstitution(name);
    SubstitutePunctuation(name);
  }

  /** The substitution step of `PunctuationExample`, character by character. */
  lemma SubstitutePunctuation(name: string)
    requires name == "Test Profile!@#"
    ensures Substitute(name) == "Test Profile___"
  {
    var expected := "Test Profile___";
    var s := Substitute(name);
    forall i | 0 <= i < |name| ensures s[i] == expected[i] {
      if i < 12 {
        assert name[i] == expected[i] && SafeChar(name[i]);
      } else {
        assert !SafeChar(name[i]);
      }
    }
    assert s == expected;
  }

  /**
   * Sanitising is not idempotent: seventy-nine `A`s, a space and `B` are cut to
   * eighty characters ending in a space, which a second pass strips.
   */
  lemma TruncationLeavesTrailingSpace(name: string)
    requires |name| == 81 && name[79] == ' ' && name[80] == 'B'
    requires forall i :: 0 <= i < 79 ==> name[i] == 'A'
    ensures SafeFilename(SafeFilename(name)) != SafeFilename(name)
  {
    assert NoDoubleSpaces(name);
    OnlySubstitution(name);
    SubstituteKeepsSafe(name);
    var r := SafeFilename(name);
    assert r == name[..80];
    assert r[79] == ' ';
    var t := TrimEnd(TrimStart(r));
    assert TrimStart(r) == r;
    assert |t| < 80;
    CollapseFromInput(Substitute(t));
    assert |SafeFilename(r)| < 80;
  }

  // ---------------------------------------------------------------------------
  // `profile_path`

  /** A path as a directory and a file name within it. */
  datatype ProfilePath = ProfilePath(directory: string, fileName: string)

  function ProfilePathOf(name: string): ProfilePath
  {
    ProfilePath(ProfilesDir, SafeFilename(name) + Extension)
  }

  /** Index of the last `.` in `s`, if any. */
  function LastDot(s: string): (r: Option<nat>)
    ensures r.Some? ==> r.value < |s| && s[r.value] == '.' && forall k :: r.value < k < |s| ==> s[k] != '.'
    ensures r.None? ==> forall k :: 0 <= k < |s| ==> s[k] != '.'
    decreases |s|
  {
    if |s| == 0 then None
    else if s[|s| - 1] == '.' then Some(|s| - 1)
    else LastDot(s[..|s| - 1])
  }

  /**
   * `Path.stem`: the file name without its suffix, the suffix being from the last
   * `.` on, unless that dot is the first or the last character.
   */
  function Stem(fileName: string): string
  {
    match LastDot(fileName)
    case Some(i) => if 0 < i < |fileName| - 1 then fileName[..i] else fileName
    case None => fileName
  }

  /**
   * The profile lives directly in ".profiles" (a sanitised name holds no `/`), its
   * file name is the sanitised name followed by ".json", and its stem is the
   * sanitised name, except for an empty one, where the whole ".json" is the stem.
   */
  lemma ProfilePathShape(name: string)
    ensures ProfilePathOf(name).directory == ProfilesDir
    ensures '/' !in ProfilePathOf(name).fileName
    ensures ProfilePathOf(name).fileName[..|SafeFilename(name)|] == SafeFilename(name)
    ensures ProfilePathOf(name).fileName[|SafeFilename(name)|..] == Extension
    ensures SafeFilename(name) != [] ==> Stem(ProfilePathOf(name).fileName) == SafeFilename(name)
    ensures SafeFilename(name) == [] ==> Stem(ProfilePathOf(name).fileName) == Extension
  {
    SafeFilenameShape(name);
    FileNameShape(SafeFilename(name), ProfilePathOf(name).fileName);
  }

  /** The file name of a name made of safe characters: no `/`, and ".json" is its suffix. */
  lemma FileNameShape(safe: string, f: string)
    requires AllSafe(safe) && f == safe + Extension
    ensures '/' !in f && f[..|safe|] == safe && f[|safe|..] == Extension
    ensures safe != [] ==> Stem(f) == safe
    ensures safe == [] ==> Stem(f) == Extension
  {
    forall i | 0 <= i < |f| ensures f[i] != '/' && (i > |safe| ==> f[i] != '.') {
      if i < |safe| {
        assert f[i] == safe[i] && SafeChar(safe[i]);
      } else {
        assert f[i] == Extension[i - |safe|];
        ExtensionChar(i - |safe|);
      }
    }
    assert f[|safe|] == '.';
    var d := LastDot(f);
    assert d.Some? && d.value == |safe|;
  }

  /** ".json" holds no `/`, and its only `.` is its first character. */
  lemma ExtensionChar(k: nat)
    requires k < |Extension|
    ensures Extension[k] != '/' && (k > 0 ==> Extension[k] != '.')
  {
    if k == 0 {
    } else if k == 1 {
    } else if k == 2 {
    } else if k == 3 {
    } else {
    }
  }

  /** A double space inside a name becomes one: "a  b" gives "a b". */
  lemma DoubleSpaceExample(name: string)
    requires name == "a  b"
    ensures SafeFilename(name) == "a b"
  {
    StripKeepsTrimmed(name);
    assert AllSafe(name);
    SubstituteKeepsSafe(name);
    CollapseDropsRepeat(name, 1);
    assert name[..1] + name[2..] == "a b";
    assert NoDoubleSpaces("a b");
    CollapseKeepsSingleSpaces("a b");
  }

  /** `profile_path("TestProfile")` is ".profiles/TestProfile.json", whose name starts with "TestProfile". */
  lemma ProfilePathExample(name: string)
    requires name == "TestProfile"
    ensures ProfilePathOf(name) == ProfilePath(".profiles", "TestProfile.json")
  {
    assert AllSafe(name) && NoDoubleSpaces(name);
    SafeNameIsKept(name);
  }
}
