/** `RegexMatcher`: the flag string of `regexp_matches`/`regexp_replace`
    turned into a `java.util.regex.Pattern` flag mask, the global flag, the
    detector for PCRE-only pattern features, and the shaping of successive
    `find()` results into the rows the functions return. `java.util.regex`
    itself is an oracle here: a compiled pattern is known only by the
    successive matches it finds in a term and by what its replacements give. */
module RegexMatching {
  import opened Wrappers

  // ---------------------------------------------------------------- flags

  /** The `java.util.regex.Pattern` flags the parser can set. */
  datatype PatternFlag =
    | UnixLines | CaseInsensitive | Comments | Multiline | DotAll | UnicodeCase | UnicodeCharacterClass

  /** The value of each flag's constant in `Pattern`. Each is a single bit of
      its own, so an `int` mask built with `|` from them is fully described
      by the set of flags whose bits it holds, and `|` is set union. */
  function FlagValue(f: PatternFlag): int
  {
    match f
    case UnixLines => 0x01
    case CaseInsensitive => 0x02
    case Comments => 0x04
    case Multiline => 0x08
    case DotAll => 0x20
    case UnicodeCase => 0x40
    case UnicodeCharacterClass => 0x100
  }

  /** The flag letter that selects each flag. */
  function LetterOf(f: PatternFlag): char
  {
    match f
    case UnixLines => 'd'
    case CaseInsensitive => 'i'
    case Comments => 'x'
    case Multiline => 'm'
    case DotAll => 's'
    case UnicodeCase => 'u'
    case UnicodeCharacterClass => 'U'
  }

  /** Why a matcher cannot be built: an unknown flag letter
      (`IllegalArgumentException`) or a pattern `java.util.regex` rejects. */
  datatype RegexError = UnknownFlag(flag: char) | PatternSyntax(regex: string)

  /** What one letter of a flag string means to the parser: the flags it
      sets (none for `' '` and `'g'`), or that the letter is unknown. */
  datatype FlagLetter = Known(adds: set<PatternFlag>) | Unknown

  /** The outcome of parsing a flag string: the flag mask, or the first
      letter the parser does not know. */
  datatype Flags = Flags(mask: set<PatternFlag>) | IllegalFlag(flag: char)

  /** The meaning of one flag letter. */
  function FlagBit(c: char): FlagLetter
  {
    match c
    case 'i' => Known({CaseInsensitive})
    case 'u' => Known({UnicodeCase})
    case 'U' => Known({UnicodeCharacterClass})
    case 's' => Known({DotAll})
    case 'm' => Known({Multiline})
    case 'x' => Known({Comments})
    case 'd' => Known({UnixLines})
    case ' ' => Known({})
    case 'g' => Known({})
    case _ => Unknown
  }

  /** The flag mask of a flag string read from the left; the first unknown
      letter makes the whole string fail. */
  function FlagMask(s: string): Flags
  {
    if s == [] then Flags({})
    else
      match FlagBit(s[0])
      case Unknown => IllegalFlag(s[0])
      case Known(b) =>
        match FlagMask(s[1..])
        case IllegalFlag(c) => IllegalFlag(c)
        case Flags(m) => Flags(b + m)
  }

  /** `parseFlags`: no flag string means no flags. */
  function ParsedFlags(flags: Option<string>): Flags
  {
    if flags.None? then Flags({}) else FlagMask(flags.value)
  }

  /** `acc` combined with the mask `r` of the letters still to read. */
  function OrWith(acc: set<PatternFlag>, r: Flags): Flags
  {
    match r
    case Flags(m) => Flags(acc + m)
    case IllegalFlag(c) => r
  }

  /** `parseFlags(flagsString)`: ORs the bit of each letter into the mask,
      and throws at the first letter it does not know. */
  method ParseFlags(flagsString: Option<string>) returns (r: Flags)
    ensures r == ParsedFlags(flagsString)
  {
    var flags: set<PatternFlag> := {};
    if flagsString.None? {
      return Flags(flags);
    }
    var s := flagsString.value;
    assert s[0..] == s;
    for i := 0 to |s|
      invariant ParsedFlags(flagsString) == OrWith(flags, FlagMask(s[i..]))
    {
      assert s[i..][1..] == s[i + 1..];
      match FlagBit(s[i])
      case Unknown =>
        return IllegalFlag(s[i]);
      case Known(b) =>
        flags := flags + b;
    }
    return Flags(flags);
  }

  /** A flag string fails to parse exactly when one of its letters is
      unknown, and it then reports the first such letter. */
  lemma {:induction false} FlagMaskFails(s: string)
    ensures FlagMask(s).IllegalFlag? <==> exists k :: 0 <= k < |s| && FlagBit(s[k]).Unknown?
    ensures FlagMask(s).IllegalFlag? <==> exists c :: c in s && FlagBit(c).Unknown?
    ensures FlagMask(s).IllegalFlag? ==>
      exists k :: 0 <= k < |s| && FlagBit(s[k]).Unknown? && FlagMask(s).flag == s[k]
                  && forall j :: 0 <= j < k ==> FlagBit(s[j]).Known?
  {
    if s != [] {
      FlagMaskFails(s[1..]);
      if FlagBit(s[0]).Unknown? {
        assert FlagBit(s[0]).Unknown? && FlagMask(s).flag == s[0];
      } else if FlagMask(s).IllegalFlag? {
        var k :| 0 <= k < |s[1..]| && FlagBit(s[1..][k]).Unknown? && FlagMask(s[1..]).flag == s[1..][k]
                 && forall j :: 0 <= j < k ==> FlagBit(s[1..][j]).Known?;
        assert FlagBit(s[k + 1]).Unknown? && FlagMask(s).flag == s[k + 1];
        assert forall j :: 0 <= j < k + 1 ==> FlagBit(s[j]).Known? by {
          forall j | 0 <= j < k + 1 ensures FlagBit(s[j]).Known? {
            if 0 < j {
              assert s[j] == s[1..][j - 1];
            }
          }
        }
      } else {
        forall k | 0 <= k < |s| ensures FlagBit(s[k]).Known? {
          if 0 < k {
            assert s[k] == s[1..][k - 1];
          }
        }
      }
    }
  }

  /** Each letter sets one flag of its own: the letters of two different
      flags differ, and each letter sets exactly its flag, whose constant is
      a distinct single bit. */
  lemma OneFlagPerLetter(f: PatternFlag, g: PatternFlag)
    ensures FlagBit(LetterOf(f)) == Known({f})
    ensures f != g ==> LetterOf(f) != LetterOf(g) && FlagValue(f) != FlagValue(g)
    ensures FlagValue(f) in {0x01, 0x02, 0x04, 0x08, 0x20, 0x40, 0x100}
  {
  }

  /** A parsed mask holds a flag exactly when the flag's letter occurs in
      the flag string. */
  lemma {:induction false} FlagMaskHasFlag(s: string, f: PatternFlag)
    requires FlagMask(s).Flags?
    ensures f in FlagMask(s).mask <==> LetterOf(f) in s
  {
    if s != [] {
      FlagMaskHasFlag(s[1..], f);
      assert (LetterOf(f) in s) <==> (LetterOf(f) == s[0] || LetterOf(f) in s[1..]) by {
        assert s == [s[0]] + s[1..];
      }
    }
  }

  /** The parsed flags do not depend on the order of the letters or on how
      often each occurs: two strings with the same letters parse alike. */
  lemma FlagsIgnoreOrderAndRepetition(s: string, t: string)
    requires forall c :: c in s <==> c in t
    ensures FlagMask(s).Flags? <==> FlagMask(t).Flags?
    ensures FlagMask(s).Flags? ==> FlagMask(s).mask == FlagMask(t).mask
  {
    FlagMaskFails(s);
    FlagMaskFails(t);
    if FlagMask(s).Flags? && FlagMask(t).Flags? {
      forall f ensures f in FlagMask(s).mask <==> f in FlagMask(t).mask {
        FlagMaskHasFlag(s, f);
        FlagMaskHasFlag(t, f);
      }
    }
  }

  /** `String.indexOf(char)`: the first position of `c`, or -1. */
  function IndexOf(s: string, c: char): (r: int)
    ensures r == -1 <==> c !in s
    ensures r != -1 ==> 0 <= r < |s| && s[r] == c && c !in s[..r]
  {
    if s == [] then -1
    else if s[0] == c then 0
    else
      var k := IndexOf(s[1..], c);
      assert s == [s[0]] + s[1..];
      if k == -1 then -1
      else
        assert s[..k + 1] == [s[0]] + s[1..][..k];
        k + 1
  }

  /** `isGlobal(flags)`: the flag string holds a `'g'`. */
  function IsGlobal(flags: Option<string>): (r: bool)
    ensures r <==> flags.Some? && 'g' in flags.value
  {
    flags.Some? && IndexOf(flags.value, 'g') != -1
  }

  // ---------------------------------------------------------------- PCRE features

  const CharacterClasses: string := "dDsSwW"
  const BoundaryMatchers: string := "bBAGZz"
  const EmbeddedFlags: string := "idmsuxU"

  /** The characters `.` does not match without `DOTALL`. */
  predicate IsLineTerminator(c: char)
  {
    c == '\n' || c == '\r' || c == '\U{0085}' || c == '\U{2028}' || c == '\U{2029}'
  }

  predicate NoLineTerminator(p: string)
  {
    forall k :: 0 <= k < |p| ==> !IsLineTerminator(p[k])
  }

  /** A backslash followed by a predefined character class or a boundary
      matcher, at or after position `from`. */
  predicate HasPcreEscape(p: string, from: nat)
  {
    exists k :: from <= k && k + 1 < |p| && p[k] == '\\' && p[k + 1] in CharacterClasses + BoundaryMatchers
  }

  /** The pattern opens with an embedded flag expression such as `(?i)`. */
  predicate HasEmbeddedFlag(p: string)
  {
    |p| >= 4 && p[0] == '(' && p[1] == '?' && p[2] in EmbeddedFlags && p[3] == ')'
  }

  /** One left-to-right pass that matches the pattern
      `.*\\[dDsSwWbBAGZz].*|^\(\?[idmsuxU]\).*` against `p` from position `i`;
      `found` records that an alternative's distinctive part has been seen. */
  function PcreScan(p: string, i: nat, found: bool): bool
    requires i <= |p|
    decreases |p| - i
  {
    if i == |p| then found
    else if IsLineTerminator(p[i]) then false
    else PcreScan(p, i + 1, found || (p[i] == '\\' && i + 1 < |p| && p[i + 1] in CharacterClasses + BoundaryMatchers))
  }

  lemma {:induction false} PcreScanMeaning(p: string, i: nat, found: bool)
    requires i <= |p|
    ensures PcreScan(p, i, found)
        <==> (forall k :: i <= k < |p| ==> !IsLineTerminator(p[k])) && (found || HasPcreEscape(p, i))
    decreases |p| - i
  {
    if i < |p| && !IsLineTerminator(p[i]) {
      var here := p[i] == '\\' && i + 1 < |p| && p[i + 1] in CharacterClasses + BoundaryMatchers;
      PcreScanMeaning(p, i + 1, found || here);
      assert HasPcreEscape(p, i) <==> here || HasPcreEscape(p, i + 1) by {
        if HasPcreEscape(p, i) && !here {
          var k :| i <= k && k + 1 < |p| && p[k] == '\\' && p[k + 1] in CharacterClasses + BoundaryMatchers;
          assert k != i;
        }
      }
    }
  }

  /** `isPcrePattern(pattern)`: true exactly when the pattern uses a PCRE
      escape anywhere or opens with an embedded flag, and holds no line
      terminator (which the `.*` around either feature cannot cross). */
  function IsPcrePattern(p: string): (r: bool)
    ensures r <==> NoLineTerminator(p) && (HasPcreEscape(p, 0) || HasEmbeddedFlag(p))
  {
    PcreScanMeaning(p, 0, HasEmbeddedFlag(p));
    PcreScan(p, 0, HasEmbeddedFlag(p))
  }

  // ---------------------------------------------------------------- the regex oracle

  /** One successful `find()`: the whole match (`group()`) and the capture
      groups 1..`groupCount()` (`group(k)`, null when a group took no part). */
  datatype Found = Found(whole: string, groups: seq<Option<string>>)

  /** A compiled `java.util.regex.Pattern`, known by what its matchers do:
      the successive results of `find()` on a term, and `replaceAll` and
      `replaceFirst`. */
  datatype Pattern = Pattern(
    finds: string -> seq<Found>,
    replaceAll: (string, string) -> string,
    replaceFirst: (string, string) -> string)

  /** `Pattern.compile(regex, flags)`: a pattern, or `None` when the regex is
      malformed. */
  type Compiler = (string, set<PatternFlag>) -> Option<Pattern>

  /** The row `groups()` makes of one match: the whole match when the pattern
      has no groups, groups 1..n otherwise. */
  function GroupsOf(f: Found): (r: seq<Option<string>>)
    ensures |r| == if f.groups == [] then 1 else |f.groups|
    ensures f.groups == [] ==> r == [Some(f.whole)]
    ensures f.groups != [] ==> r == f.groups
  {
    if f.groups == [] then [Some(f.whole)] else f.groups
  }

  /** The rows of the first `n` matches. */
  function RowsOf(fs: seq<Found>): (r: seq<seq<Option<string>>>)
    ensures |r| == |fs| && forall k :: 0 <= k < |fs| ==> r[k] == GroupsOf(fs[k])
  {
    if fs == [] then [] else [GroupsOf(fs[0])] + RowsOf(fs[1..])
  }

  lemma {:induction false} RowsOfSnoc(fs: seq<Found>, f: Found)
    ensures RowsOf(fs + [f]) == RowsOf(fs) + [GroupsOf(f)]
  {
    assert |RowsOf(fs + [f])| == |RowsOf(fs) + [GroupsOf(f)]|;
  }

  /** What `match(term)` returns: with the global flag, one row per match in
      order; without it, the row of the first match only; `null` (`None`) if
      nothing matches. */
  function Matches(pattern: Pattern, global: bool, term: string): Option<seq<seq<Option<string>>>>
  {
    var fs := pattern.finds(term);
    if fs == [] then None
    else if global then Some(RowsOf(fs))
    else Some([GroupsOf(fs[0])])
  }

  /** The two shapes agree: a non-global match is the first row of the
      global one, and either finds something exactly when the other does. */
  lemma GlobalExtendsFirst(pattern: Pattern, term: string)
    ensures Matches(pattern, true, term).Some? <==> Matches(pattern, false, term).Some?
    ensures Matches(pattern, false, term).Some? ==>
      |Matches(pattern, true, term).value| == |pattern.finds(term)| >= 1
      && Matches(pattern, false, term).value == Matches(pattern, true, term).value[..1]
  {
  }

  /** What `new RegexMatcher(regex, flags)` builds, or why it throws: the
      flags are parsed before the pattern is compiled. */
  function Compiled(compile: Compiler, regex: string, flags: Option<string>): Result<Pattern, RegexError>
  {
    match ParsedFlags(flags)
    case IllegalFlag(c) => Failure(UnknownFlag(c))
    case Flags(bits) =>
    match compile(regex, bits)
    case None => Failure(PatternSyntax(regex))
    case Some(pattern) => Success(pattern)
  }

  /** A `java.util.regex.Matcher`: the term it was reset to and how many
      successful `find()`s it has made on it. */
  datatype MatcherState = MatcherState(term: string, found: nat)

  class RegexMatcher {
    const globalFlag: bool
    const pattern: Pattern
    var matcher: Option<MatcherState>

    constructor (pattern: Pattern, globalFlag: bool)
      ensures this.pattern == pattern && this.globalFlag == globalFlag && matcher == None
    {
      this.pattern := pattern;
      this.globalFlag := globalFlag;
      matcher := None;
    }

    /** `initMatcher(term)`: a new matcher on the first use, a reset one after. */
    method InitMatcher(term: string)
      modifies this
      ensures matcher == Some(MatcherState(term, 0))
    {
      if matcher.None? {
        matcher := Some(MatcherState(term, 0));
      } else {
        matcher := Some(matcher.value.(term := term, found := 0));
      }
    }

    /** `groups()`: the row of the next match, or `null` once `find()` fails. */
    method Groups() returns (r: Option<seq<Option<string>>>)
      requires matcher.Some?
      modifies this
      ensures var m := old(matcher.value);
              var fs := pattern.finds(m.term);
              if m.found < |fs|
              then r == Some(GroupsOf(fs[m.found])) && matcher == Some(m.(found := m.found + 1))
              else r == None && matcher == old(matcher)
    {
      var m := matcher.value;
      var fs := pattern.finds(m.term);
      if m.found < |fs| {
        r := Some(GroupsOf(fs[m.found]));
        matcher := Some(m.(found := m.found + 1));
      } else {
        r := None;
      }
    }

    /** `match(term)`. The matcher is reset first, so the result depends on
        the term alone and not on earlier calls. */
    method Match(term: string) returns (r: Option<seq<seq<Option<string>>>>)
      modifies this
      ensures r == Matches(pattern, globalFlag, term)
      ensures matcher.Some? && matcher.value.term == term
    {
      InitMatcher(term);
      var fs := pattern.finds(term);
      if globalFlag {
        var result: seq<seq<Option<string>>> := [];
        var groups := Groups();
        if groups.Some? {
          assert RowsOf(fs[..1]) == [GroupsOf(fs[0])];
        }
        while groups.Some?
          invariant matcher.Some? && matcher.value.term == term && matcher.value.found <= |fs|
          invariant groups.Some? ==> 0 < matcher.value.found && result + [groups.value] == RowsOf(fs[..matcher.value.found])
          invariant groups.None? ==> matcher.value.found == |fs| && result == RowsOf(fs)
          decreases |fs| - matcher.value.found, groups.Some?
        {
          result := result + [groups.value];
          groups := Groups();
          if groups.Some? {
            assert fs[..matcher.value.found] == fs[..matcher.value.found - 1] + [fs[matcher.value.found - 1]];
            RowsOfSnoc(fs[..matcher.value.found - 1], fs[matcher.value.found - 1]);
          } else {
            assert fs[..matcher.value.found] == fs;
          }
        }
        if result == [] {
          r := None;
        } else {
          r := Some(result);
        }
      } else {
        var groups := Groups();
        if groups.Some? {
          r := Some([groups.value]);
        } else {
          r := None;
        }
      }
    }

    /** `replace(term, replacement)`: every match replaced with the global
        flag, the first one otherwise. */
    method Replace(term: string, replacement: string) returns (r: string)
      modifies this
      ensures globalFlag ==> r == pattern.replaceAll(term, replacement)
      ensures !globalFlag ==> r == pattern.replaceFirst(term, replacement)
      ensures matcher == Some(MatcherState(term, 0))
    {
      InitMatcher(term);
      if globalFlag {
        r := pattern.replaceAll(term, replacement);
      } else {
        r := pattern.replaceFirst(term, replacement);
      }
    }
  }

  /** `new RegexMatcher(regex, flags)`: throws on an unknown flag letter or a
      malformed regex. */
  method NewRegexMatcher(compile: Compiler, regex: string, flags: Option<string>)
    returns (r: Result<RegexMatcher, RegexError>)
    ensures Compiled(compile, regex, flags).Failure? ==> r == Failure(Compiled(compile, regex, flags).error)
    ensures Compiled(compile, regex, flags).Success? ==>
      r.Success? && fresh(r.value) && r.value.matcher == None
      && r.value.pattern == Compiled(compile, regex, flags).value && r.value.globalFlag == IsGlobal(flags)
  {
    var bits := ParseFlags(flags);
    if bits.IllegalFlag? {
      return Failure(UnknownFlag(bits.flag));
    }
    var pattern := compile(regex, bits.mask);
    if pattern.None? {
      return Failure(PatternSyntax(regex));
    }
    var m := new RegexMatcher(pattern.value, IsGlobal(flags));
    return Success(m);
  }
}
