/**
 * Locating the firmware patch file: the caseless comparison
 * `hw_strncmp` and the directory search `hw_config_findpatch` (one
 * definition for both loaders; they differ only in the path length limit
 * and the file extension, which are parameters here).
 */
module PatchLocator {
  import opened Maybe

  /** Character `i` of a C string: NUL from its end on. */
  function At(s: string, i: nat): char
  {
    if i < |s| then s[i] else '\0'
  }

  /** `toupper` in the C locale. */
  function ToUpper(c: char): char
  {
    if 'a' <= c <= 'z' then (c as int - 32) as char else c
  }

  /** The first `len` characters agree up to case. */
  predicate CaselessPrefix(s1: string, s2: string, len: nat)
  {
    forall i :: 0 <= i < len ==> ToUpper(At(s1, i)) == ToUpper(At(s2, i))
  }

  /**
   * `hw_strncmp`: 0 when the first `len` characters match without regard
   * to case, otherwise one more than the index of the first mismatch.
   */
  method HwStrncmp(s1: string, s2: string, len: nat) returns (r: nat)
    ensures r == 0 <==> CaselessPrefix(s1, s2, len)
    ensures r != 0 ==> r <= len && CaselessPrefix(s1, s2, r - 1)
    ensures r != 0 ==> ToUpper(At(s1, r - 1)) != ToUpper(At(s2, r - 1))
  {
    var i := 0;
    while i < len
      invariant 0 <= i <= len
      invariant CaselessPrefix(s1, s2, i)
    {
      if ToUpper(At(s1, i)) != ToUpper(At(s2, i)) {
        return i + 1;
      }
      i := i + 1;
    }
    return 0;
  }

  /** Where patch files live, and a file name fixed by configuration (may be empty). */
  datatype PatchConfig = PatchConfig(path: string, name: string)

  /**
   * The search's verdict, the string it leaves in the caller's chip-id
   * buffer, and the path it hands back for opening (NULL when it did not
   * set one).
   */
  datatype Located = Located(found: bool, chipIdStr: string, patchFile: Option<string>)

  /**
   * A separator is inserted unless the directory ends with '/'. (For an
   * empty directory the source reads the character before the string;
   * the model inserts the separator.)
   */
  predicate NeedsSlash(path: string)
  {
    |path| == 0 || path[|path| - 1] != '/'
  }

  function JoinPath(path: string, name: string): string
  {
    path + (if NeedsSlash(path) then "/" else "") + name
  }

  /** The entry starts with the chip id and ends with the extension, ignoring case. */
  predicate Matches(entry: string, chipId: string, ext: string)
  {
    && CaselessPrefix(entry, chipId, |chipId|)
    && |entry| >= |ext|
    && CaselessPrefix(entry[|entry| - |ext|..], ext, |ext|)
  }

  /** Index of the first matching entry at or after `from`. */
  function FirstMatchFrom(entries: seq<string>, chipId: string, ext: string, from: nat): (r: Option<nat>)
    requires from <= |entries|
    ensures r.Some? ==> from <= r.value < |entries| && Matches(entries[r.value], chipId, ext)
    ensures r.Some? ==> forall j :: from <= j < r.value ==> !Matches(entries[j], chipId, ext)
    ensures r.None? ==> forall j :: from <= j < |entries| ==> !Matches(entries[j], chipId, ext)
    decreases |entries| - from
  {
    if from == |entries| then None
    else if Matches(entries[from], chipId, ext) then Some(from)
    else FirstMatchFrom(entries, chipId, ext, from + 1)
  }

  /**
   * Specification of the search. A configured name wins without looking
   * at the directory; otherwise the first matching entry decides, and is
   * rejected when its name and the directory are together longer than
   * `maxLen`.
   */
  function Locate(chipId: string, cfg: PatchConfig, dir: Option<seq<string>>, maxLen: nat, ext: string): Located
  {
    if |cfg.name| > 0 then Located(true, JoinPath(cfg.path, cfg.name), None)
    else if dir.None? then Located(false, chipId, None)
    else match FirstMatchFrom(dir.value, chipId, ext, 0)
      case None => Located(false, chipId, None)
      case Some(i) =>
        if |dir.value[i]| + |cfg.path| > maxLen then Located(false, chipId, None)
        else Located(true, chipId, Some(JoinPath(cfg.path, dir.value[i])))
  }

  /**
   * `hw_config_findpatch` over a directory listing (None when `opendir`
   * fails), reading the entries in order.
   */
  method FindPatch(chipId: string, cfg: PatchConfig, dir: Option<seq<string>>, maxLen: nat, ext: string)
    returns (r: Located)
    ensures r == Locate(chipId, cfg, dir, maxLen, ext)
  {
    if |cfg.name| > 0 {
      return Located(true, JoinPath(cfg.path, cfg.name), None);
    }
    if dir.None? {
      return Located(false, chipId, None);
    }
    var entries := dir.value;
    var i := 0;
    while i < |entries|
      invariant 0 <= i <= |entries|
      invariant FirstMatchFrom(entries, chipId, ext, 0) == FirstMatchFrom(entries, chipId, ext, i)
    {
      var name := entries[i];
      var prefix := HwStrncmp(name, chipId, |chipId|);
      if prefix == 0 {
        var len := |name|;
        if len >= |ext| {
          var suffix := HwStrncmp(name[len - |ext|..], ext, |ext|);
          if suffix == 0 {
            if len + |cfg.path| > maxLen {
              return Located(false, chipId, None);
            }
            return Located(true, chipId, Some(JoinPath(cfg.path, name)));
          }
        }
      }
      i := i + 1;
    }
    return Located(false, chipId, None);
  }

  /** A configured name is used whatever the directory holds, and nothing is opened from it. */
  lemma ConfiguredNameWins(chipId: string, cfg: PatchConfig, dir: Option<seq<string>>, maxLen: nat, ext: string)
    requires |cfg.name| > 0
    ensures Locate(chipId, cfg, dir, maxLen, ext) == Located(true, JoinPath(cfg.path, cfg.name), None)
  {
  }

  /** The first matching entry ends the search: found exactly when its path fits. */
  lemma FirstMatchDecides(chipId: string, cfg: PatchConfig, entries: seq<string>, maxLen: nat, ext: string, i: nat)
    requires |cfg.name| == 0
    requires i < |entries| && Matches(entries[i], chipId, ext)
    requires forall j :: 0 <= j < i ==> !Matches(entries[j], chipId, ext)
    ensures var r := Locate(chipId, cfg, Some(entries), maxLen, ext);
      && (r.found <==> |entries[i]| + |cfg.path| <= maxLen)
      && (r.found ==> r.patchFile == Some(JoinPath(cfg.path, entries[i])))
      && (!r.found ==> r.patchFile.None?)
  {
    var k := FirstMatchFrom(entries, chipId, ext, 0);
    assert k.Some? && k.value == i;
  }

  /** Without a configured name, a patch file is handed back only for a matching entry. */
  lemma FoundOnlyForMatch(chipId: string, cfg: PatchConfig, dir: Option<seq<string>>, maxLen: nat, ext: string)
    requires |cfg.name| == 0
    ensures var r := Locate(chipId, cfg, dir, maxLen, ext);
      && (r.found <==> r.patchFile.Some?)
      && (r.found ==> dir.Some? && exists i ::
            && 0 <= i < |dir.value|
            && Matches(dir.value[i], chipId, ext)
            && r.patchFile == Some(JoinPath(cfg.path, dir.value[i]))
            && |dir.value[i]| + |cfg.path| <= maxLen)
      && r.chipIdStr == chipId
  {
    if dir.Some? {
      var k := FirstMatchFrom(dir.value, chipId, ext, 0);
      if k.Some? {
        var i := k.value;
        assert Matches(dir.value[i], chipId, ext);
      }
    }
  }

  /** The separator appears exactly when the directory does not already end with one. */
  lemma JoinPathSlash(path: string, name: string)
    requires |path| > 0
    ensures path[|path| - 1] == '/' ==> JoinPath(path, name) == path + name
    ensures path[|path| - 1] != '/' ==> JoinPath(path, name) == path + "/" + name
  {
  }

  /** Two strings of one length whose characters agree up to case. */
  predicate SameUpToCase(a: string, b: string)
  {
    |a| == |b| && forall i :: 0 <= i < |a| ==> ToUpper(a[i]) == ToUpper(b[i])
  }

  /** A C string: no NUL inside it. */
  predicate NulFree(s: string)
  {
    forall i :: 0 <= i < |s| ==> s[i] != '\0'
  }

  /** Strings equal up to case agree up to case at every position, past their end included. */
  lemma AtUpToCase(a: string, b: string, i: nat)
    requires SameUpToCase(a, b)
    ensures ToUpper(At(a, i)) == ToUpper(At(b, i))
  {
  }

  lemma CaselessPrefixUpToCase(s1: string, s1': string, s2: string, s2': string, len: nat)
    requires SameUpToCase(s1, s1') && SameUpToCase(s2, s2')
    ensures CaselessPrefix(s1, s2, len) == CaselessPrefix(s1', s2', len)
  {
    forall i | 0 <= i < len
      ensures ToUpper(At(s1, i)) == ToUpper(At(s1', i)) && ToUpper(At(s2, i)) == ToUpper(At(s2', i))
    {
      AtUpToCase(s1, s1', i);
      AtUpToCase(s2, s2', i);
    }
  }

  /**
   * Matching ignores case: changing the case of any character of the
   * entry, the chip id or the extension changes nothing.
   */
  lemma MatchIgnoresCase(e: string, e': string, c: string, c': string, x: string, x': string)
    requires SameUpToCase(e, e') && SameUpToCase(c, c') && SameUpToCase(x, x')
    ensures Matches(e, c, x) == Matches(e', c', x')
  {
    CaselessPrefixUpToCase(e, e', c, c', |c|);
    if |e| >= |x| {
      var t, t' := e[|e| - |x|..], e'[|e'| - |x'|..];
      assert SameUpToCase(t, t') by {
        forall i | 0 <= i < |t| ensures ToUpper(t[i]) == ToUpper(t'[i]) {
          assert t[i] == e[|e| - |x| + i] && t'[i] == e'[|e| - |x| + i];
        }
      }
      CaselessPrefixUpToCase(t, t', x, x', |x|);
    }
  }

  /**
   * An entry matches exactly when it is at least as long as the chip id
   * and the extension, begins with the chip id and ends with the
   * extension, each up to case (the chip id being a C string).
   */
  lemma MatchIsCaselessAffixes(e: string, c: string, x: string)
    requires NulFree(c)
    ensures Matches(e, c, x) <==>
      && |e| >= |c| && |e| >= |x|
      && SameUpToCase(e[..|c|], c)
      && SameUpToCase(e[|e| - |x|..], x)
  {
    if |e| < |c| {
      assert ToUpper(At(e, |e|)) != ToUpper(At(c, |e|));
    } else {
      var p := e[..|c|];
      if CaselessPrefix(e, c, |c|) {
        forall i | 0 <= i < |c| ensures ToUpper(p[i]) == ToUpper(c[i]) {
          assert ToUpper(At(e, i)) == ToUpper(At(c, i));
        }
      }
      if SameUpToCase(p, c) {
        forall i | 0 <= i < |c| ensures ToUpper(At(e, i)) == ToUpper(At(c, i)) {
          assert p[i] == e[i];
        }
      }
    }
    if |e| >= |x| {
      var t := e[|e| - |x|..];
      assert CaselessPrefix(t, x, |x|) <==> SameUpToCase(t, x) by {
        if CaselessPrefix(t, x, |x|) {
          forall i | 0 <= i < |x| ensures ToUpper(t[i]) == ToUpper(x[i]) {
            assert ToUpper(At(t, i)) == ToUpper(At(x, i));
          }
        }
      }
    }
  }

  /** Examples: another case matches; another chip id or another extension does not. */
  lemma MatchExamples()
    ensures Matches("A00.PBN", "a00", ".pbn")
    ensures Matches("a00_B0.pbn", "a00", ".pbn")
    ensures !Matches("a01.pbn", "a00", ".pbn")
    ensures !Matches("a00.seq", "a00", ".pbn")
  {
    assert ToUpper("A00.PBN"[1]) == ToUpper("a00"[1]);
    assert ToUpper(At("a01.pbn", 2)) != ToUpper(At("a00", 2));
    assert ToUpper(At("a00.seq"[3..], 1)) != ToUpper(At(".pbn", 1));
  }
}
