/**
  The credential convention shared by every wrapper: the configured value is
  either the secret itself or the path of a file holding it. If the value
  names an existing regular file, the secret is that file's text with the
  surrounding whitespace stripped; otherwise the value is used as it is.
 */
module Credentials {

  /** The regular files that exist, from path to the text a text-mode read returns. */
  type FileSystem = map<string, string>

  /** The code points of the characters that Python's str.isspace accepts, which str.strip removes. */
  const SpaceCodes: set<int> := {
    9, 10, 11, 12, 13, 28, 29, 30, 31, 32, 0x85, 0xA0, 0x1680,
    0x2000, 0x2001, 0x2002, 0x2003, 0x2004, 0x2005, 0x2006, 0x2007, 0x2008, 0x2009, 0x200A,
    0x2028, 0x2029, 0x202F, 0x205F, 0x3000
  }

  predicate IsSpace(c: char)
  {
    c as int in SpaceCodes
  }

  predicate AllSpaces(s: string)
  {
    forall i :: 0 <= i < |s| ==> IsSpace(s[i])
  }

  /** Neither the first nor the last character is whitespace. */
  predicate Unpadded(s: string)
  {
    s == [] || (!IsSpace(s[0]) && !IsSpace(s[|s| - 1]))
  }

  /** How many characters of whitespace s starts with. */
  function LeadingSpaces(s: string): (n: nat)
    ensures n <= |s| && AllSpaces(s[..n])
    ensures n < |s| ==> !IsSpace(s[n])
  {
    if |s| > 0 && IsSpace(s[0]) then
      var k := LeadingSpaces(s[1..]);
      1 + k
    else 0
  }

  /** How many characters of whitespace s ends with. */
  function TrailingSpaces(s: string): (n: nat)
    ensures n <= |s| && AllSpaces(s[|s| - n..])
    ensures n < |s| ==> !IsSpace(s[|s| - 1 - n])
  {
    if |s| > 0 && IsSpace(s[|s| - 1]) then
      var k := TrailingSpaces(s[..|s| - 1]);
      1 + k
    else 0
  }

  /** Python's str.strip() with no argument: drop the leading, then the trailing whitespace. */
  function Strip(s: string): (r: string)
    ensures Unpadded(r)
  {
    var left := s[LeadingSpaces(s)..];
    left[..|left| - TrailingSpaces(left)]
  }

  lemma SplitThree(s: string, i: nat, j: nat)
    requires i <= |s| && j <= |s| - i
    ensures s == s[..i] + s[i..][..j] + s[i..][j..]
  {
    assert s == s[..i] + s[i..];
    assert s[i..] == s[i..][..j] + s[i..][j..];
  }

  /** Stripping only takes whitespace off: s is whitespace, then what is kept, then whitespace. */
  lemma StripIsSlice(s: string)
    ensures exists pre, post :: s == pre + Strip(s) + post && AllSpaces(pre) && AllSpaces(post)
  {
    var i := LeadingSpaces(s);
    var left := s[i..];
    var j := |left| - TrailingSpaces(left);
    SplitThree(s, i, j);
    PaddedWitness(s, s[..i], Strip(s), left[j..]);
  }

  lemma PaddedWitness(s: string, pre: string, mid: string, post: string)
    requires s == pre + mid + post && AllSpaces(pre) && AllSpaces(post)
    ensures exists pre', post' :: s == pre' + mid + post' && AllSpaces(pre') && AllSpaces(post')
  {
  }

  /** The secret the wrappers configure their client with. */
  function Resolve(fs: FileSystem, key: string): (secret: string)
    ensures key in fs ==> secret == Strip(fs[key]) && Unpadded(secret)
    ensures key !in fs ==> secret == key
  {
    if key in fs then Strip(fs[key]) else key
  }

  lemma {:induction false} LeadingSpacesOfPadded(pre: string, s: string)
    requires AllSpaces(pre)
    requires s == [] || !IsSpace(s[0])
    ensures LeadingSpaces(pre + s) == |pre|
  {
    if pre == [] {
      assert pre + s == s;
    } else {
      assert (pre + s)[1..] == pre[1..] + s;
      LeadingSpacesOfPadded(pre[1..], s);
    }
  }

  lemma {:induction false} TrailingSpacesOfPadded(s: string, post: string)
    requires AllSpaces(post)
    requires s == [] || !IsSpace(s[|s| - 1])
    ensures TrailingSpaces(s + post) == |post|
  {
    if post == [] {
      assert s + post == s;
    } else {
      var shorter := post[..|post| - 1];
      assert (s + post)[..|s + post| - 1] == s + shorter;
      TrailingSpacesOfPadded(s, shorter);
    }
  }

  /** Stripping removes exactly the surrounding whitespace and nothing of the text between. */
  lemma StripOfPadded(pre: string, s: string, post: string)
    requires AllSpaces(pre) && AllSpaces(post) && Unpadded(s)
    ensures Strip(pre + s + post) == s
  {
    var t := pre + s + post;
    if s == [] {
      assert t == (pre + post) + [];
      LeadingSpacesOfPadded(pre + post, []);
    } else {
      assert t == pre + (s + post);
      LeadingSpacesOfPadded(pre, s + post);
      assert t[|pre|..] == s + post;
      TrailingSpacesOfPadded(s, post);
    }
  }

  /** Stripping twice is stripping once. */
  lemma StripIdempotent(s: string)
    ensures Strip(Strip(s)) == Strip(s)
  {
    var r := Strip(s);
    assert [] + r + [] == r;
    StripOfPadded([], r, []);
  }

  /** A file holding "secret123" and a newline resolves to "secret123". */
  lemma ResolveFileWithNewline(fs: FileSystem, path: string)
    requires path in fs && fs[path] == "secret123\n"
    ensures Resolve(fs, path) == "secret123"
  {
    assert "secret123\n" == [] + "secret123" + "\n";
    StripOfPadded([], "secret123", "\n");
  }
}
