/** `sanitizeFileName`: the project name turned into a file-name stem. It strips a trailing
    extension, deletes every character other than ASCII letters, digits, `_`, `-` and white
    space, turns each run of white space into one `_`, collapses runs of `_`, and trims. */
module FileNames {
  import opened Common

  /** The characters JavaScript's `\s` matches, which are also those `String.prototype.trim`
      removes: tab, line feed, vertical tab, form feed, carriage return, space, no-break
      space, ogham space mark, the en quad to hair space block, the line and paragraph
      separators, narrow no-break space, medium mathematical space, ideographic space and
      the byte-order mark. */
  predicate IsSpace(c: char)
  {
    if c <= ' ' then c == ' ' || ('\t' <= c <= '\r')
    else '\U{00A0}' <= c && IsWideSpace(c)
  }

  /** The white-space characters above the ASCII range. */
  predicate IsWideSpace(c: char)
  {
    || c == '\U{00A0}' || c == '\U{1680}' || ('\U{2000}' <= c <= '\U{200A}')
    || c == '\U{2028}' || c == '\U{2029}' || c == '\U{202F}' || c == '\U{205F}'
    || c == '\U{3000}' || c == '\U{FEFF}'
  }

  /** The characters a sanitized name is made of. */
  predicate IsNameChar(c: char)
  {
    ('a' <= c <= 'z') || ('A' <= c <= 'Z') || ('0' <= c <= '9') || c == '_' || c == '-'
  }

  /** No name character is white space. */
  lemma NameCharNotSpace(c: char)
    requires IsNameChar(c)
    ensures !IsSpace(c)
  {
  }

  /** The class `[a-zA-Z0-9_\-\s]` that the character filter keeps. */
  predicate Kept(c: char)
  {
    IsNameChar(c) || IsSpace(c)
  }

  /** `/\.[^/.]+$/` matches at `i`: a dot followed by at least one character, none of which is
      a dot or a slash, up to the end. */
  predicate ExtensionAt(s: string, i: int)
  {
    0 <= i < |s| - 1 && s[i] == '.' && forall j :: i < j < |s| ==> s[j] != '.' && s[j] != '/'
  }

  /** The pattern matches at most one position: the last dot. */
  lemma ExtensionUnique(s: string, i: int, j: int)
    requires ExtensionAt(s, i) && ExtensionAt(s, j)
    ensures i == j
  {
  }

  /** Where the pattern matches, scanning back from the end. */
  function ExtensionStart(s: string): (r: Option<nat>)
    ensures r.Some? ==> ExtensionAt(s, r.value)
    ensures r.None? ==> forall i :: !ExtensionAt(s, i)
  {
    if |s| < 2 then None
    else
      var c := s[|s| - 1];
      if c == '.' || c == '/' then None
      else if s[|s| - 2] == '.' then Some(|s| - 2)
      else
        var init := s[..|s| - 1];
        var r := ExtensionStart(init);
        assert forall i :: ExtensionAt(s, i) ==> ExtensionAt(init, i) by {
          forall i | ExtensionAt(s, i) ensures ExtensionAt(init, i) {
            assert i != |s| - 2;
          }
        }
        r
  }

  /** `fileName.replace(/\.[^/.]+$/, '')`: drops the final extension, and only that. */
  function StripExtension(s: string): (r: string)
    ensures forall i :: ExtensionAt(s, i) ==> r == s[..i]
    ensures (forall i :: !ExtensionAt(s, i)) ==> r == s
  {
    match ExtensionStart(s)
    case None => s
    case Some(i) =>
      forall j | ExtensionAt(s, j) ensures j == i { ExtensionUnique(s, i, j); }
      s[..i]
  }

  /** Every character of `s` is one the filter keeps. */
  predicate AllKept(s: string)
  {
    forall i :: 0 <= i < |s| ==> Kept(s[i])
  }

  /** Every character of `s` is a name character. */
  predicate AllNameChars(s: string)
  {
    forall i :: 0 <= i < |s| ==> IsNameChar(s[i])
  }

  /** `.replace(/[^a-zA-Z0-9_\-\s]/g, '')`: keeps the characters of the class, in order. */
  function RemoveDisallowed(s: string): string
  {
    if |s| == 0 then ""
    else if Kept(s[0]) then [s[0]] + RemoveDisallowed(s[1..])
    else RemoveDisallowed(s[1..])
  }

  /** The filter leaves only kept characters, keeps each kept character of the input, and is
      the identity on an input with nothing to delete. */
  lemma RemoveDisallowedSpec(s: string)
    ensures var r := RemoveDisallowed(s);
            && AllKept(r)
            && (forall c :: Kept(c) ==> multiset(r)[c] == multiset(s)[c])
            && (AllKept(s) ==> r == s)
  {
    RemoveDisallowedKeeps(s);
    RemoveDisallowedCounts(s);
  }

  lemma {:induction false} RemoveDisallowedKeeps(s: string)
    ensures AllKept(RemoveDisallowed(s)) && (AllKept(s) ==> RemoveDisallowed(s) == s)
  {
    if |s| > 0 {
      RemoveDisallowedKeeps(s[1..]);
      assert s == [s[0]] + s[1..];
      var rest := RemoveDisallowed(s[1..]);
      if Kept(s[0]) {
        assert forall i :: 1 <= i < |[s[0]] + rest| ==> ([s[0]] + rest)[i] == rest[i - 1];
      }
    }
  }

  lemma {:induction false} RemoveDisallowedCounts(s: string)
    ensures forall c :: Kept(c) ==> multiset(RemoveDisallowed(s))[c] == multiset(s)[c]
  {
    if |s| > 0 {
      RemoveDisallowedCounts(s[1..]);
      var rest := RemoveDisallowed(s[1..]);
      assert s == [s[0]] + s[1..];
      assert multiset(s) == multiset{s[0]} + multiset(s[1..]);
      if Kept(s[0]) {
        assert multiset(RemoveDisallowed(s)) == multiset{s[0]} + multiset(rest);
      }
    }
  }

  /** The suffix of `s` after its leading white space. */
  function DropSpaces(s: string): (r: string)
    ensures |r| <= |s| && r == s[|s| - |r|..]
    ensures |r| > 0 ==> !IsSpace(r[0])
  {
    if |s| > 0 && IsSpace(s[0]) then DropSpaces(s[1..]) else s
  }

  /** `.replace(/\s+/g, '_')`: each maximal run of white space becomes one underscore. */
  function ReplaceSpaceRuns(s: string): string
    decreases |s|
  {
    if |s| == 0 then ""
    else if IsSpace(s[0]) then "_" + ReplaceSpaceRuns(DropSpaces(s[1..]))
    else [s[0]] + ReplaceSpaceRuns(s[1..])
  }

  /** No character of `s` is white space. */
  predicate NoSpaces(s: string)
  {
    forall i :: 0 <= i < |s| ==> !IsSpace(s[i])
  }

  lemma SuffixKept(s: string, k: nat)
    requires k <= |s| && AllKept(s)
    ensures AllKept(s[k..])
  {
    forall i | 0 <= i < |s| - k ensures Kept(s[k..][i]) {
      assert s[k..][i] == s[k + i];
    }
  }

  /** Of the kept characters, replacing the white space leaves only name characters. */
  lemma {:induction false} ReplaceSpaceRunsNameChars(s: string)
    requires AllKept(s)
    ensures AllNameChars(ReplaceSpaceRuns(s))
    decreases |s|
  {
    if |s| > 0 {
      var rest := if IsSpace(s[0]) then DropSpaces(s[1..]) else s[1..];
      SuffixKept(s, |s| - |rest|);
      ReplaceSpaceRunsNameChars(rest);
      PrependNameChars(if IsSpace(s[0]) then '_' else s[0], ReplaceSpaceRuns(rest));
    }
  }

  /** A string without white space is left unchanged. */
  lemma {:induction false} ReplaceSpaceRunsIdentity(s: string)
    requires NoSpaces(s)
    ensures ReplaceSpaceRuns(s) == s
    decreases |s|
  {
    if |s| > 0 {
      assert NoSpaces(s[1..]) by {
        forall i | 0 <= i < |s| - 1 ensures !IsSpace(s[1..][i]) {
          assert s[1..][i] == s[i + 1];
        }
      }
      ReplaceSpaceRunsIdentity(s[1..]);
    }
  }

  /** The suffix of `s` after its leading underscores. */
  function DropUnderscores(s: string): (r: string)
    ensures |r| <= |s| && r == s[|s| - |r|..]
    ensures |r| > 0 ==> r[0] != '_'
  {
    if |s| > 0 && s[0] == '_' then DropUnderscores(s[1..]) else s
  }

  /** No two adjacent underscores. */
  predicate NoDoubleUnderscore(s: string)
  {
    forall i :: 0 <= i < |s| - 1 ==> !(s[i] == '_' && s[i + 1] == '_')
  }

  /** Putting a character in front keeps the property unless it makes a new pair. */
  lemma PrependNoDouble(c: char, r: string)
    requires NoDoubleUnderscore(r)
    requires c == '_' && |r| > 0 ==> r[0] != '_'
    ensures NoDoubleUnderscore([c] + r)
  {
    var t := [c] + r;
    forall i | 0 <= i < |t| - 1 ensures !(t[i] == '_' && t[i + 1] == '_') {
      if i > 0 {
        assert t[i] == r[i - 1] && t[i + 1] == r[i];
      }
    }
  }

  /** A suffix keeps the property. */
  lemma TailNoDouble(s: string)
    requires |s| > 0 && NoDoubleUnderscore(s)
    ensures NoDoubleUnderscore(s[1..])
  {
    forall i | 0 <= i < |s| - 2 ensures !(s[1..][i] == '_' && s[1..][i + 1] == '_') {
      assert s[1..][i] == s[i + 1] && s[1..][i + 1] == s[i + 2];
    }
  }

  /** Name characters in front and behind make a name-character string. */
  lemma PrependNameChars(c: char, r: string)
    requires IsNameChar(c) && AllNameChars(r)
    ensures AllNameChars([c] + r)
  {
    var t := [c] + r;
    forall i | 0 <= i < |t| ensures IsNameChar(t[i]) {
      if i > 0 {
        assert t[i] == r[i - 1];
      }
    }
  }

  lemma SuffixNameChars(s: string, k: nat)
    requires k <= |s| && AllNameChars(s)
    ensures AllNameChars(s[k..])
  {
    forall i | 0 <= i < |s| - k ensures IsNameChar(s[k..][i]) {
      assert s[k..][i] == s[k + i];
    }
  }

  /** `.replace(/_{2,}/g, '_')`: each run of underscores becomes one. */
  function CollapseUnderscores(s: string): string
    decreases |s|
  {
    if |s| == 0 then ""
    else if s[0] == '_' then "_" + CollapseUnderscores(DropUnderscores(s[1..]))
    else [s[0]] + CollapseUnderscores(s[1..])
  }

  /** The collapsed name has no two underscores in a row, and starts with the input's first
      character. */
  lemma {:induction false} CollapseNoDouble(s: string)
    ensures var r := CollapseUnderscores(s);
            && NoDoubleUnderscore(r)
            && (|s| > 0 ==> |r| > 0 && r[0] == s[0])
    decreases |s|
  {
    if |s| > 0 {
      var rest := if s[0] == '_' then DropUnderscores(s[1..]) else s[1..];
      CollapseNoDouble(rest);
      PrependNoDouble(s[0], CollapseUnderscores(rest));
    }
  }

  /** Collapsing keeps a string of name characters one. */
  lemma {:induction false} CollapseNameChars(s: string)
    requires AllNameChars(s)
    ensures AllNameChars(CollapseUnderscores(s))
    decreases |s|
  {
    if |s| > 0 {
      var rest := if s[0] == '_' then DropUnderscores(s[1..]) else s[1..];
      SuffixNameChars(s, |s| - |rest|);
      CollapseNameChars(rest);
      PrependNameChars(s[0], CollapseUnderscores(rest));
    }
  }

  /** A string without two underscores in a row is left unchanged. */
  lemma {:induction false} CollapseIdentity(s: string)
    requires NoDoubleUnderscore(s)
    ensures CollapseUnderscores(s) == s
    decreases |s|
  {
    if |s| > 0 {
      TailNoDouble(s);
      if s[0] == '_' && |s| > 1 {
        assert s[1] != '_';
      }
      CollapseIdentity(s[1..]);
    }
  }

  /** `String.prototype.trim`: drops leading and trailing white space. */
  function Trim(s: string): string
  {
    if |s| == 0 then ""
    else if IsSpace(s[0]) then Trim(s[1..])
    else if IsSpace(s[|s| - 1]) then Trim(s[..|s| - 1])
    else s
  }

  /** Trimming removes white space at both ends and changes nothing else of a name. */
  lemma TrimSpec(s: string)
    ensures var r := Trim(s);
            && (|r| > 0 ==> !IsSpace(r[0]) && !IsSpace(r[|r| - 1]))
            && (AllNameChars(s) ==> r == s)
  {
    if |s| > 0 && AllNameChars(s) {
      assert IsNameChar(s[0]) && IsNameChar(s[|s| - 1]);
    }
  }

  /** `sanitizeFileName` */
  function SanitizeFileName(fileName: string): string
  {
    Trim(CollapseUnderscores(ReplaceSpaceRuns(RemoveDisallowed(StripExtension(fileName)))))
  }

  /** A sanitized name consists of ASCII letters, digits, `_` and `-` only, and never holds two
      underscores in a row. */
  lemma SanitizedIsClean(fileName: string)
    ensures AllNameChars(SanitizeFileName(fileName))
    ensures NoDoubleUnderscore(SanitizeFileName(fileName))
  {
    var a := RemoveDisallowed(StripExtension(fileName));
    RemoveDisallowedSpec(StripExtension(fileName));
    var b := ReplaceSpaceRuns(a);
    ReplaceSpaceRunsNameChars(a);
    var c := CollapseUnderscores(b);
    CollapseNoDouble(b);
    CollapseNameChars(b);
    TrimSpec(c);
  }

  /** Sanitizing a sanitized name gives it back unchanged. */
  lemma SanitizeIdempotent(fileName: string)
    ensures SanitizeFileName(SanitizeFileName(fileName)) == SanitizeFileName(fileName)
  {
    var r := SanitizeFileName(fileName);
    SanitizedIsClean(fileName);
    assert forall i :: !ExtensionAt(r, i) by {
      forall i | 0 <= i < |r| - 1 ensures !ExtensionAt(r, i) {
        assert IsNameChar(r[i]);
      }
    }
    assert StripExtension(r) == r;
    assert AllKept(r);
    RemoveDisallowedSpec(r);
    assert NoSpaces(r) by {
      forall i | 0 <= i < |r| ensures !IsSpace(r[i]) {
        NameCharNotSpace(r[i]);
      }
    }
    ReplaceSpaceRunsIdentity(r);
    CollapseIdentity(r);
    TrimSpec(r);
  }

  /** Only the last extension goes; a trailing dot or a slash after the last dot is no
      extension. */
  lemma StripExtensionExamples()
    ensures StripExtension("a b.c.d") == "a b.c"
    ensures StripExtension("a.") == "a."
    ensures StripExtension("a.b/c") == "a.b/c"
  {
    assert ExtensionAt("a b.c.d", 5);
    assert !ExtensionAt("a.", 1);
    assert forall i :: !ExtensionAt("a.b/c", i) by {
      forall i | 0 <= i < 4 ensures !ExtensionAt("a.b/c", i) {
        assert i != 1 || "a.b/c"[3] == '/';
      }
    }
  }

  /** The dots an earlier extension leaves behind are deleted by the character filter. */
  lemma RemoveDisallowedExample()
    ensures RemoveDisallowed("a b.c") == "a bc"
  {
    assert RemoveDisallowed("c") == "c";
    assert RemoveDisallowed(".c") == "c";
    assert RemoveDisallowed("b.c") == "bc";
    assert RemoveDisallowed(" b.c") == " bc";
  }
}
