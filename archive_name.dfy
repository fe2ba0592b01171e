/**
 * The archive base name the plugin gives a subproject: "gradle-" followed by
 * the project name with every upper-case letter replaced by '-' and its
 * lower-case form ("myCoolPlugin" becomes "gradle-my-cool-plugin").
 * Letters are ASCII letters.
 */
module ArchiveNames {

  const Prefix: string := "gradle-"

  predicate IsUpper(c: char)
  {
    'A' <= c <= 'Z'
  }

  predicate IsLower(c: char)
  {
    'a' <= c <= 'z'
  }

  function ToLower(c: char): (l: char)
    requires IsUpper(c)
    ensures IsLower(l)
  {
    ('a' as int + (c as int - 'A' as int)) as char
  }

  function ToUpper(c: char): (u: char)
    requires IsLower(c)
    ensures IsUpper(u) && ToLower(u) == c
  {
    ('A' as int + (c as int - 'a' as int)) as char
  }

  predicate NoUpper(s: string)
  {
    forall i :: 0 <= i < |s| ==> !IsUpper(s[i])
  }

  /** Number of upper-case letters in `s`. */
  function CountUpper(s: string): nat
  {
    if s == [] then 0 else (if IsUpper(s[0]) then 1 else 0) + CountUpper(s[1..])
  }

  /** What the replacement makes of one character. */
  function Piece(c: char): string
  {
    if IsUpper(c) then ['-', ToLower(c)] else [c]
  }

  /** The project name after the upper-case replacement. */
  function Hyphenated(s: string): (r: string)
    ensures NoUpper(r)
  {
    if s == [] then [] else Piece(s[0]) + Hyphenated(s[1..])
  }

  /** `archivesBaseName` for a project called `name`. */
  function ArchivesBaseName(name: string): (r: string)
    ensures |r| == |Prefix| + |name| + CountUpper(name)
    ensures r[..|Prefix|] == Prefix
    ensures NoUpper(r)
  {
    HyphenatedLength(name);
    Prefix + Hyphenated(name)
  }

  /** Each upper-case letter grows the name by one character. */
  lemma {:induction false} HyphenatedLength(s: string)
    ensures |Hyphenated(s)| == |s| + CountUpper(s)
  {
    if s != [] {
      HyphenatedLength(s[1..]);
    }
  }

  lemma {:induction false} CountUpperZeroIff(s: string)
    ensures CountUpper(s) == 0 <==> NoUpper(s)
  {
    if s != [] {
      CountUpperZeroIff(s[1..]);
      assert forall i :: 0 < i < |s| ==> s[i] == s[1..][i - 1];
    }
  }

  /** The rewrite works character by character: it distributes over concatenation. */
  lemma {:induction false} HyphenatedConcat(a: string, b: string)
    ensures Hyphenated(a + b) == Hyphenated(a) + Hyphenated(b)
  {
    if a == [] {
      assert a + b == b;
    } else {
      assert (a + b)[0] == a[0];
      assert (a + b)[1..] == a[1..] + b;
      HyphenatedConcat(a[1..], b);
    }
  }

  /**
   * Character `i` of the name lands at position `i + CountUpper(s[..i])` of
   * the result: an upper-case letter as '-' and its lower-case form, any
   * other character unchanged. So every character is kept, in order.
   */
  lemma HyphenatedAt(s: string, i: nat)
    requires i < |s|
    ensures var p := i + CountUpper(s[..i]);
      if IsUpper(s[i]) then
        p + 1 < |Hyphenated(s)| && Hyphenated(s)[p] == '-' && Hyphenated(s)[p + 1] == ToLower(s[i])
      else
        p < |Hyphenated(s)| && Hyphenated(s)[p] == s[i]
  {
    assert s == s[..i] + [s[i]] + s[i + 1..];
    HyphenatedConcat(s[..i] + [s[i]], s[i + 1..]);
    HyphenatedConcat(s[..i], [s[i]]);
    HyphenatedLength(s[..i]);
    assert Hyphenated([s[i]]) == Piece(s[i]);
  }

  /** A name is left unchanged exactly when it has no upper-case letter. */
  lemma HyphenatedFixedPointIff(s: string)
    ensures Hyphenated(s) == s <==> NoUpper(s)
  {
    CountUpperZeroIff(s);
    HyphenatedLength(s);
    if NoUpper(s) {
      NoUpperUnchanged(s);
    }
  }

  lemma {:induction false} NoUpperUnchanged(s: string)
    requires NoUpper(s)
    ensures Hyphenated(s) == s
  {
    if s != [] {
      assert NoUpper(s[1..]) by {
        assert forall i :: 0 <= i < |s[1..]| ==> s[1..][i] == s[i + 1];
      }
      NoUpperUnchanged(s[1..]);
    }
  }

  /** Applying the rewrite twice is the same as applying it once. */
  lemma HyphenatedIdempotent(s: string)
    ensures Hyphenated(Hyphenated(s)) == Hyphenated(s)
  {
    NoUpperUnchanged(Hyphenated(s));
  }

  /** Turns "-x" back into "X": the inverse of the rewrite on names without '-'. */
  function Camelized(r: string): string
  {
    if r == [] then []
    else if |r| >= 2 && r[0] == '-' && IsLower(r[1]) then [ToUpper(r[1])] + Camelized(r[2..])
    else [r[0]] + Camelized(r[1..])
  }

  /** A project name without '-' is recovered from its rewritten form. */
  lemma {:induction false} CamelizedHyphenated(s: string)
    requires '-' !in s
    ensures Camelized(Hyphenated(s)) == s
  {
    if s != [] {
      assert '-' !in s[1..] by {
        assert forall i :: 0 <= i < |s[1..]| ==> s[1..][i] == s[i + 1];
      }
      CamelizedHyphenated(s[1..]);
      var h := Hyphenated(s);
      assert h == Piece(s[0]) + Hyphenated(s[1..]);
      if IsUpper(s[0]) {
        assert h[0] == '-' && h[1] == ToLower(s[0]);
        assert h[2..] == Hyphenated(s[1..]);
        assert ToUpper(ToLower(s[0])) == s[0];
      } else {
        assert h[0] == s[0] && h[1..] == Hyphenated(s[1..]);
      }
    }
  }

  /** One capitalised word: its first letter becomes '-' and its lower-case form. */
  lemma HyphenatedWord(c: char, w: string)
    requires IsUpper(c) && NoUpper(w)
    ensures Hyphenated([c] + w) == ['-', ToLower(c)] + w
  {
    assert ([c] + w)[1..] == w;
    NoUpperUnchanged(w);
  }

  /**
   * With a '-' in the name the rewrite is not injective: "tooling-api" and
   * "toolingApi" share an archive name.
   */
  lemma ArchivesBaseNameCollision(dashed: string, camel: string)
    requires dashed == "tooling-api" && camel == "toolingApi"
    ensures dashed != camel
    ensures Hyphenated(dashed) == Hyphenated(camel) == dashed
    ensures ArchivesBaseName(dashed) == ArchivesBaseName(camel)
  {
    assert Hyphenated(dashed) == dashed by {
      NoUpperUnchanged(dashed);
    }
    var lead, tail := "tooling", "pi";
    assert camel == lead + (['A'] + tail);
    HyphenatedLeadWord(lead, 'A', tail);
  }

  /** A lower-case word followed by a capitalised word. */
  lemma HyphenatedLeadWord(lead: string, c: char, w: string)
    requires NoUpper(lead) && IsUpper(c) && NoUpper(w)
    ensures Hyphenated(lead + ([c] + w)) == lead + (['-', ToLower(c)] + w)
  {
    NoUpperUnchanged(lead);
    HyphenatedWord(c, w);
    HyphenatedConcat(lead, [c] + w);
  }

  /** A lower-case word followed by two capitalised words. */
  lemma HyphenatedThreeWords(lead: string, c1: char, w1: string, c2: char, w2: string)
    requires NoUpper(lead) && IsUpper(c1) && NoUpper(w1) && IsUpper(c2) && NoUpper(w2)
    ensures Hyphenated(lead + ([c1] + w1) + ([c2] + w2)) == lead + (['-', ToLower(c1)] + w1) + (['-', ToLower(c2)] + w2)
  {
    HyphenatedLeadWord(lead, c1, w1);
    HyphenatedWord(c2, w2);
    HyphenatedConcat(lead + ([c1] + w1), [c2] + w2);
  }

  lemma HyphenatedCamelCase(name: string)
    requires name == "myCoolPlugin"
    ensures Hyphenated(name) == "my-cool-plugin"
  {
    var lead, w1, w2 := "my", "ool", "lugin";
    assert name == lead + (['C'] + w1) + (['P'] + w2);
    HyphenatedThreeWords(lead, 'C', w1, 'P', w2);
  }

  lemma ArchivesBaseNameOfCamelCase(name: string)
    requires name == "myCoolPlugin"
    ensures ArchivesBaseName(name) == "gradle-my-cool-plugin"
  {
    HyphenatedCamelCase(name);
    assert ArchivesBaseName(name) == Prefix + Hyphenated(name);
  }

  lemma ArchivesBaseNameOfCapitalised(name: string)
    requires name == "Core"
    ensures ArchivesBaseName(name) == "gradle--core"
  {
    HyphenatedWord('C', "ore");
    assert name == ['C'] + "ore";
  }
}
