/** The HTML escaper `escapeHtml`: five global replacements applied one after
    the other, ampersand first. The chain is proved equal to a single
    per-character map; from the map follow the safety of the output (no raw
    markup character, every ampersand starts an entity) and the round trip
    through decoding the five entities, ampersand last. */
module Html {
  import opened Strings

  /** `s.replace(/p/g, r)` for a pattern that matches the literal text `p`:
      the scan goes left to right and replaces non-overlapping occurrences. */
  function ReplaceAll(s: string, p: string, r: string): string
    requires p != []
    decreases |s|
  {
    if s == [] then []
    else if p <= s then r + ReplaceAll(s[|p|..], p, r)
    else [s[0]] + ReplaceAll(s[1..], p, r)
  }

  /** The characters `escapeHtml` rewrites. */
  const Reserved: set<char> := {'&', '<', '>', '"', '\''}

  /** The replacement of one character. */
  function EscapeChar(c: char): string {
    match c
    case '&' => "&amp;"
    case '<' => "&lt;"
    case '>' => "&gt;"
    case '"' => "&quot;"
    case '\'' => "&#039;"
    case _ => [c]
  }

  /** The chained replacements, in the order the source applies them. */
  function EscapeText(s: string): string {
    ReplaceAll(ReplaceAll(ReplaceAll(ReplaceAll(ReplaceAll(
      s, "&", "&amp;"), "<", "&lt;"), ">", "&gt;"), "\"", "&quot;"), "'", "&#039;")
  }

  /** `escapeHtml(unsafe)`: absent or empty input gives the empty string;
      anything else is escaped, and the result is inert as markup and decodes
      back to the input. */
  function EscapeHtml(unsafe: Option<string>): (r: string)
    ensures r == [] <==> unsafe.None? || unsafe.value == []
    ensures IsInert(r)
    ensures unsafe.Some? ==> UnescapeText(r) == unsafe.value
  {
    if unsafe.None? || unsafe.value == [] then []
    else
      EscapeTextInert(unsafe.value);
      UnescapeEscape(unsafe.value);
      EscapeText(unsafe.value)
  }

  /** The escape as one pass over the characters. */
  function EscapeEach(s: string): string
    decreases |s|
  {
    if s == [] then [] else EscapeChar(s[0]) + EscapeEach(s[1..])
  }

  /** Decoding the five entities: `&amp;` is decoded last, so that an
      ampersand that was escaped never joins the text after it into a new
      entity. */
  function UnescapeText(t: string): string {
    ReplaceAll(ReplaceAll(ReplaceAll(ReplaceAll(ReplaceAll(
      t, "&lt;", "<"), "&gt;", ">"), "&quot;", "\""), "&#039;", "'"), "&amp;", "&")
  }

  /** `t` begins with one of the five entities. */
  predicate StartsEntity(t: string) {
    "&amp;" <= t || "&lt;" <= t || "&gt;" <= t || "&quot;" <= t || "&#039;" <= t
  }

  /** Text that cannot open a tag, close an attribute or start anything but
      one of the five entities. */
  predicate IsInert(t: string) {
    (forall i :: 0 <= i < |t| ==> t[i] != '<' && t[i] != '>' && t[i] != '"' && t[i] != '\'')
    && (forall i :: 0 <= i < |t| && t[i] == '&' ==> StartsEntity(t[i..]))
  }

  // ---- The chain equals the per-character map ----

  /** The text of character `c` once the characters in `done` are escaped. */
  function Block(done: set<char>, c: char): string {
    if c in done then EscapeChar(c) else [c]
  }

  /** The text after some of the replacements (those of `done`) have run. */
  function Staged(done: set<char>, s: string): string
    decreases |s|
  {
    if s == [] then [] else Block(done, s[0]) + Staged(done, s[1..])
  }

  /** No occurrence of `p` found by a left-to-right scan of `b + rest` can
      start inside `b`. */
  predicate NoMatchStartsIn(b: string, p: string)
    requires p != []
  {
    (forall i :: 0 < i < |b| ==> b[i] != p[0])
    && (b != [] && b[0] == p[0] ==> 2 <= |b| && 2 <= |p| && b[1] != p[1])
  }

  /** One replacement turns the block of `c` before it into the block after
      it: either the block is the pattern and becomes the replacement, or it
      is left alone and the scan passes over it. */
  predicate StepMaps(done: set<char>, next: set<char>, p: string, r: string, c: char)
    requires p != []
  {
    (Block(done, c) == p && Block(next, c) == r)
    || (Block(next, c) == Block(done, c) && NoMatchStartsIn(Block(done, c), p))
  }

  lemma {:induction false} ReplaceSkips(b: string, rest: string, p: string, r: string)
    requires p != [] && NoMatchStartsIn(b, p)
    ensures ReplaceAll(b + rest, p, r) == b + ReplaceAll(rest, p, r)
    decreases |b|
  {
    if b != [] {
      var t := b + rest;
      assert !(p <= t) by {
        if b[0] == p[0] { assert t[1] == b[1]; }
      }
      assert t[1..] == b[1..] + rest;
      ReplaceSkips(b[1..], rest, p, r);
    } else {
      assert b + rest == rest;
    }
  }

  /** One replacement applied to a staged text gives the next stage. */
  lemma {:induction false} ReplaceStaged(done: set<char>, next: set<char>, p: string, r: string, s: string)
    requires p != []
    requires forall c :: StepMaps(done, next, p, r, c)
    ensures ReplaceAll(Staged(done, s), p, r) == Staged(next, s)
    decreases |s|
  {
    if s != [] {
      var b, rest := Block(done, s[0]), Staged(done, s[1..]);
      assert StepMaps(done, next, p, r, s[0]);
      if b == p && Block(next, s[0]) == r {
        assert p <= b + rest;
        assert (b + rest)[|p|..] == rest;
      } else {
        ReplaceSkips(b, rest, p, r);
      }
      ReplaceStaged(done, next, p, r, s[1..]);
    }
  }

  /** Escaping `c` next is one step, provided `&` went first: the entities
      already written contain none of `<`, `>`, `"`, `'`. */
  lemma EscapeStep(done: set<char>, c: char)
    requires c in Reserved && c !in done && done <= Reserved
    requires c == '&' ==> done == {}
    ensures forall x :: StepMaps(done, done + {c}, [c], EscapeChar(c), x)
  {
    forall x ensures StepMaps(done, done + {c}, [c], EscapeChar(c), x) {
      if x != c && x in done {
        assert c != '&';
        assert x in Reserved;
      }
    }
  }

  /** Decoding the entity of `c` is one step, provided `&amp;` is still
      encoded (so no raw ampersand can run into following text) unless it is
      the last one left. */
  lemma DecodeStep(done: set<char>, c: char)
    requires c in done && done <= Reserved
    requires c != '&' ==> '&' in done
    requires c == '&' ==> done == {'&'}
    ensures forall x :: StepMaps(done, done - {c}, EscapeChar(c), [c], x)
  {
    forall x ensures StepMaps(done, done - {c}, EscapeChar(c), [c], x) {
      if x != c && x in done {
        assert x in Reserved && c in Reserved;
      }
    }
  }

  lemma {:induction false} StagedNothing(s: string)
    ensures Staged({}, s) == s
    decreases |s|
  {
    if s != [] {
      StagedNothing(s[1..]);
    }
  }

  lemma {:induction false} StagedAll(s: string)
    ensures Staged(Reserved, s) == EscapeEach(s)
    decreases |s|
  {
    if s != [] {
      StagedAll(s[1..]);
      assert Block(Reserved, s[0]) == EscapeChar(s[0]);
    }
  }

  /** Replacing `c` by its entity in a staged text stages `c` too. */
  lemma EscapeStage(done: set<char>, c: char, s: string)
    requires c in Reserved && c !in done && done <= Reserved
    requires c == '&' ==> done == {}
    ensures ReplaceAll(Staged(done, s), [c], EscapeChar(c)) == Staged(done + {c}, s)
  {
    EscapeStep(done, c);
    ReplaceStaged(done, done + {c}, [c], EscapeChar(c), s);
  }

  /** Decoding the entity of `c` in a staged text unstages `c`. */
  lemma DecodeStage(done: set<char>, c: char, s: string)
    requires c in done && done <= Reserved
    requires c != '&' ==> '&' in done
    requires c == '&' ==> done == {'&'}
    ensures ReplaceAll(Staged(done, s), EscapeChar(c), [c]) == Staged(done - {c}, s)
  {
    DecodeStep(done, c);
    ReplaceStaged(done, done - {c}, EscapeChar(c), [c], s);
  }

  /** The five chained replacements, `&` first, equal the per-character map. */
  lemma EscapeTextIsCharMap(s: string)
    ensures EscapeText(s) == EscapeEach(s)
  {
    StagedNothing(s);
    EscapeStage({}, '&', s);
    assert {} + {'&'} == {'&'};
    var s1 := ReplaceAll(s, "&", "&amp;");
    assert s1 == Staged({'&'}, s);
    EscapeStage({'&'}, '<', s);
    assert {'&'} + {'<'} == {'&', '<'};
    var s2 := ReplaceAll(s1, "<", "&lt;");
    assert s2 == Staged({'&', '<'}, s);
    EscapeStage({'&', '<'}, '>', s);
    assert {'&', '<'} + {'>'} == {'&', '<', '>'};
    var s3 := ReplaceAll(s2, ">", "&gt;");
    assert s3 == Staged({'&', '<', '>'}, s);
    EscapeStage({'&', '<', '>'}, '"', s);
    assert {'&', '<', '>'} + {'"'} == {'&', '<', '>', '"'};
    var s4 := ReplaceAll(s3, "\"", "&quot;");
    assert s4 == Staged({'&', '<', '>', '"'}, s);
    EscapeStage({'&', '<', '>', '"'}, '\'', s);
    assert {'&', '<', '>', '"'} + {'\''} == Reserved;
    StagedAll(s);
  }

  /** Decoding the five entities, `&amp;` last, gives back the original text. */
  lemma UnescapeEscape(s: string)
    ensures UnescapeText(EscapeText(s)) == s
  {
    EscapeTextIsCharMap(s);
    StagedAll(s);
    DecodeStage(Reserved, '<', s);
    assert Reserved - {'<'} == {'&', '>', '"', '\''};
    DecodeStage({'&', '>', '"', '\''}, '>', s);
    assert {'&', '>', '"', '\''} - {'>'} == {'&', '"', '\''};
    DecodeStage({'&', '"', '\''}, '"', s);
    assert {'&', '"', '\''} - {'"'} == {'&', '\''};
    DecodeStage({'&', '\''}, '\'', s);
    assert {'&', '\''} - {'\''} == {'&'};
    DecodeStage({'&'}, '&', s);
    assert {'&'} - {'&'} == {};
    StagedNothing(s);
  }

  /** An entity: it opens with `&`, has no other `&`, holds no raw markup
      character and is one of the five. */
  predicate IsEntity(e: string) {
    e != [] && e[0] == '&' && StartsEntity(e)
    && (forall i :: 0 < i < |e| ==> e[i] != '&' && e[i] != '<' && e[i] != '>' && e[i] != '"' && e[i] != '\'')
  }

  lemma EntitiesAreEntities()
    ensures IsEntity("&amp;") && IsEntity("&lt;") && IsEntity("&gt;")
    ensures IsEntity("&quot;") && IsEntity("&#039;")
  {
    assert "&amp;" <= "&amp;" && "&lt;" <= "&lt;" && "&gt;" <= "&gt;";
    assert "&quot;" <= "&quot;" && "&#039;" <= "&#039;";
  }

  /** The replacement of one character is inert on its own. */
  lemma EscapeCharInert(c: char)
    ensures IsInert(EscapeChar(c))
    ensures forall i :: 0 < i < |EscapeChar(c)| ==> EscapeChar(c)[i] != '&'
    ensures EscapeChar(c)[0] == '&' ==> StartsEntity(EscapeChar(c))
    ensures EscapeChar(c) != []
  {
    var e := EscapeChar(c);
    if c in Reserved {
      EntitiesAreEntities();
      assert IsEntity(e);
    } else {
      assert e == [c];
    }
  }

  lemma {:induction false} EscapeEachInert(s: string)
    ensures IsInert(EscapeEach(s))
    decreases |s|
  {
    if s != [] {
      EscapeEachInert(s[1..]);
      EscapeCharInert(s[0]);
      var b, rest := EscapeChar(s[0]), EscapeEach(s[1..]);
      var t := b + rest;
      forall i | 0 <= i < |t| && t[i] == '&' ensures StartsEntity(t[i..]) {
        if i < |b| {
          assert i == 0 && t[i..] == b + rest;
        } else {
          assert t[i..] == rest[i - |b|..];
        }
      }
    }
  }

  /** The escaped text holds no raw `<`, `>`, `"` or `'`, and each `&` in it
      starts one of the five entities. */
  lemma EscapeTextInert(s: string)
    ensures IsInert(EscapeText(s))
  {
    EscapeTextIsCharMap(s);
    EscapeEachInert(s);
  }

  /** Text without reserved characters comes back unchanged. */
  lemma EscapeTextIdentity(s: string)
    requires forall i :: 0 <= i < |s| ==> s[i] !in Reserved
    ensures EscapeText(s) == s
  {
    EscapeTextIsCharMap(s);
    EscapeEachIdentity(s);
  }

  lemma {:induction false} EscapeEachIdentity(s: string)
    requires forall i :: 0 <= i < |s| ==> s[i] !in Reserved
    ensures EscapeEach(s) == s
    decreases |s|
  {
    if s != [] {
      EscapeEachIdentity(s[1..]);
    }
  }
}
