/** `EMAIL_REGEX = re.compile(r"^[^@\s]+@[^@\s]+\.[^@\s]+$")` and its use
    with `EMAIL_REGEX.match(s)` in screens/auth.py. */
module EmailPattern {
  import opened Text

  /** A character of the class `[^@\s]`. */
  predicate Plain(c: char)
  {
    c != '@' && !IsSpace(c)
  }

  ghost predicate AllPlain(s: string)
  {
    forall i | 0 <= i < |s| :: Plain(s[i])
  }

  /** `b` is matched in full by `[^@\s]+@[^@\s]+\.[^@\s]+`: the three plain,
      non-empty runs sit around an `@` at `i` and a `.` at `j`. */
  ghost predicate FullMatch(b: string)
  {
    exists i, j | 0 < i && i + 1 < j && j + 1 < |b| ::
      b[i] == '@' && b[j] == '.' && AllPlain(b[..i]) && AllPlain(b[i + 1..j]) && AllPlain(b[j + 1..])
  }

  /** `re.match` with the pattern above: anchored at the start, and `$`
      matches at the very end or just before a final newline. */
  ghost predicate RegexMatches(s: string)
  {
    FullMatch(s) || (|s| > 0 && s[|s| - 1] == '\n' && FullMatch(s[..|s| - 1]))
  }

  /** The part of `s` the pattern has to cover: `s` without one final newline. */
  function Body(s: string): (b: string)
    ensures b == s || (b + "\n" == s)
  {
    if |s| > 0 && s[|s| - 1] == '\n' then s[..|s| - 1] else s
  }

  /** The check in words: one `@` only, a non-empty part before it, no
      whitespace anywhere, and a `.` in the domain with a character on
      each side. */
  predicate ValidBody(b: string)
  {
    && (forall m | 0 <= m < |b| :: !IsSpace(b[m]))
    && exists k | 0 < k < |b| ::
         && b[k] == '@'
         && (forall m | 0 <= m < |b| && m != k :: b[m] != '@')
         && (exists j | k + 1 < j < |b| - 1 :: b[j] == '.')
  }

  /** What `EMAIL_REGEX.match(s)` decides, computed without a regex engine. */
  predicate IsEmail(s: string)
  {
    ValidBody(Body(s))
  }

  lemma FullMatchFromValid(b: string)
    requires ValidBody(b)
    ensures FullMatch(b)
  {
    var k :| 0 < k < |b| && b[k] == '@' && (forall m | 0 <= m < |b| && m != k :: b[m] != '@')
             && (exists j | k + 1 < j < |b| - 1 :: b[j] == '.');
    var j :| k + 1 < j < |b| - 1 && b[j] == '.';
    var local, domain, top := b[..k], b[k + 1..j], b[j + 1..];
    assert AllPlain(local) by {
      forall m | 0 <= m < |local| ensures Plain(local[m]) { assert local[m] == b[m]; }
    }
    assert AllPlain(domain) by {
      forall m | 0 <= m < |domain| ensures Plain(domain[m]) { assert domain[m] == b[k + 1 + m]; }
    }
    assert AllPlain(top) by {
      forall m | 0 <= m < |top| ensures Plain(top[m]) { assert top[m] == b[j + 1 + m]; }
    }
  }

  lemma ValidFromFullMatch(b: string)
    requires FullMatch(b)
    ensures ValidBody(b)
  {
    var i, j :| 0 < i && i + 1 < j && j + 1 < |b| && b[i] == '@' && b[j] == '.'
                && AllPlain(b[..i]) && AllPlain(b[i + 1..j]) && AllPlain(b[j + 1..]);
    forall m | 0 <= m < |b| && m != i ensures Plain(b[m]) {
      if m < i {
        assert b[..i][m] == b[m];
      } else if m < j {
        assert b[i + 1..j][m - (i + 1)] == b[m];
      } else if m > j {
        assert b[j + 1..][m - (j + 1)] == b[m];
      }
    }
    assert forall m | 0 <= m < |b| :: !IsSpace(b[m]);
  }

  /** The computed check and the regular expression agree on every string. */
  lemma IsEmailIffRegexMatches(s: string)
    ensures IsEmail(s) <==> RegexMatches(s)
  {
    var b := Body(s);
    if IsEmail(s) {
      FullMatchFromValid(b);
      assert RegexMatches(s);
    }
    if RegexMatches(s) {
      if FullMatch(s) {
        ValidFromFullMatch(s);
        assert |s| > 0 ==> !IsSpace(s[|s| - 1]);
      } else {
        ValidFromFullMatch(s[..|s| - 1]);
      }
    }
  }

  /** `$` lets one final newline through, and only one. */
  lemma TrailingNewline(b: string)
    ensures IsEmail(b + "\n") <==> IsEmail(b) && (b == [] || b[|b| - 1] != '\n')
  {
    var s := b + "\n";
    assert Body(s) == b;
    if |b| > 0 && b[|b| - 1] == '\n' {
      assert !ValidBody(b) by { assert IsSpace(b[|b| - 1]); }
    }
  }
}
