/**
 * Content moderation and SQL table gating (backend/app/llm/guardrails.py).
 *
 * The three banned-term regular expressions and the two `findall` patterns
 * are simple enough to be written out as scanners: an alternation of
 * literal words matched case-insensitively anywhere in the text, and
 * `from\s+([a-z0-9_]+)` / `join\s+([a-z0-9_]+)` under IGNORECASE.
 */
module Guardrails {
  import opened Wrappers

  // ---------------------------------------------------------------------------
  // Case-insensitive matching of lower-case ASCII pattern text

  /**
   * What a text character matches under `re.IGNORECASE` when the pattern is
   * written in lower-case ASCII: ASCII capitals fold to their small letter,
   * and so do the four non-ASCII letters Python's `re` treats as case
   * variants of ASCII letters (KELVIN SIGN, capital I with dot above,
   * dotless i, long s). Every other character matches only itself.
   */
  function Fold(c: char): char {
    if 'A' <= c <= 'Z' then (c as int + 32) as char
    else if c == '\U{212A}' then 'k'
    else if c == '\U{0130}' || c == '\U{0131}' then 'i'
    else if c == '\U{017F}' then 's'
    else c
  }

  /** The literal `t` matches `s` at position `i`. */
  predicate MatchesAt(s: string, i: nat, t: string) {
    i + |t| <= |s| && forall j :: 0 <= j < |t| ==> Fold(s[i + j]) == t[j]
  }

  /** `re.search(t, s)` for a literal `t`: a match at some position. */
  predicate Occurs(s: string, t: string) {
    exists i :: 0 <= i <= |s| && MatchesAt(s, i, t)
  }

  // ---------------------------------------------------------------------------
  // Banned terms

  /** BANNED_PATTERNS: each entry is one alternation, alternatives in order. */
  const BannedPatterns: seq<seq<string>> := [
    ["hack", "crack", "steal", "illegal", "exploit"],
    ["personal data", "credit card", "social security"],
    ["hate speech", "racial slur", "offensive"]
  ]

  /** `re.search(pattern, s)` for one alternation. */
  predicate SearchGroup(s: string, group: seq<string>) {
    exists k :: 0 <= k < |group| && Occurs(s, group[k])
  }

  /** Some banned pattern matches somewhere in `s`. */
  predicate Banned(s: string) {
    exists g :: 0 <= g < |BannedPatterns| && SearchGroup(s, BannedPatterns[g])
  }

  /** validate_user_prompt: true iff no banned pattern matches. */
  method ValidateUserPrompt(prompt: string) returns (safe: bool)
    ensures safe <==> !Banned(prompt)
  {
    for g := 0 to |BannedPatterns|
      invariant forall h :: 0 <= h < g ==> !SearchGroup(prompt, BannedPatterns[h])
    {
      if SearchGroup(prompt, BannedPatterns[g]) {
        return false;
      }
    }
    return true;
  }

  /** The prompt of the module's own demonstration is refused. */
  lemma HackPromptIsBanned()
    ensures Banned("Can you hack into the database?")
  {
    var s := "Can you hack into the database?";
    assert MatchesAt(s, 8, "hack");
    assert Occurs(s, BannedPatterns[0][0]);
    assert SearchGroup(s, BannedPatterns[0]);
  }

  // ---------------------------------------------------------------------------
  // Redaction: re.sub(pattern, "[filtered]", text) for each pattern in turn

  const Marker: string := "[filtered]"

  predicate NonEmptyTerms(group: seq<string>) {
    forall k :: 0 <= k < |group| ==> group[k] != []
  }

  /** The alternative an alternation matches at the start of `s`: the first that matches. */
  function FirstAlternative(group: seq<string>, s: string): (r: Option<string>)
    ensures r.Some? ==> r.value in group && MatchesAt(s, 0, r.value)
    ensures r.None? ==> forall k :: 0 <= k < |group| ==> !MatchesAt(s, 0, group[k])
  {
    if group == [] then None
    else if MatchesAt(s, 0, group[0]) then Some(group[0])
    else FirstAlternative(group[1..], s)
  }

  /**
   * `re.sub` of one alternation: scanning left to right, every match is
   * replaced by the marker and scanning resumes after it.
   */
  function Sub(group: seq<string>, s: string): (r: string)
    requires NonEmptyTerms(group)
    decreases |s|
  {
    if s == [] then []
    else
      match FirstAlternative(group, s)
      case Some(t) => Marker + Sub(group, s[|t|..])
      case None => [s[0]] + Sub(group, s[1..])
  }

  predicate AllNonEmpty(groups: seq<seq<string>>) {
    forall g :: 0 <= g < |groups| ==> NonEmptyTerms(groups[g])
  }

  /** The substitutions of `groups`, applied first to last. */
  function SubAll(groups: seq<seq<string>>, s: string): string
    requires AllNonEmpty(groups)
  {
    if groups == [] then s
    else Sub(groups[|groups| - 1], SubAll(groups[..|groups| - 1], s))
  }

  /** What moderate_response returns for `response`. */
  function Moderated(response: string): string {
    SubAll(BannedPatterns, response)
  }

  /** moderate_response */
  method ModerateResponse(response: string) returns (filtered: string)
    ensures filtered == Moderated(response)
    ensures !Banned(filtered)
  {
    filtered := response;
    for g := 0 to |BannedPatterns|
      invariant filtered == SubAll(BannedPatterns[..g], response)
      invariant forall h, k :: 0 <= h < g && 0 <= k < |BannedPatterns[h]| ==>
                  !Occurs(filtered, BannedPatterns[h][k])
    {
      var next := Sub(BannedPatterns[g], filtered);
      forall h, k | 0 <= h <= g && 0 <= k < |BannedPatterns[h]|
        ensures !Occurs(next, BannedPatterns[h][k])
      {
        BannedTermRedactable(h, k);
        SubRemoves(BannedPatterns[g], filtered, BannedPatterns[h][k]);
      }
      assert BannedPatterns[..g + 1][..g] == BannedPatterns[..g];
      filtered := next;
    }
    assert BannedPatterns[..|BannedPatterns|] == BannedPatterns;
  }

  /** A term the redaction cannot bring back: no brackets, and not inside the marker. */
  predicate Redactable(t: string) {
    t != [] && (forall j :: 0 <= j < |t| ==> t[j] != '[' && t[j] != ']') && !Occurs(Marker, t)
  }

  lemma NotAt(s: string, i: nat, t: string, j: nat)
    requires j < |t| && i + j < |s| && Fold(s[i + j]) != t[j]
    ensures !MatchesAt(s, i, t)
  {
  }

  lemma BannedTermRedactable(g: nat, k: nat)
    requires g < |BannedPatterns| && k < |BannedPatterns[g]|
    ensures Redactable(BannedPatterns[g][k])
  {
    var t := BannedPatterns[g][k];
    forall i | 0 <= i <= |Marker| ensures !MatchesAt(Marker, i, t) {
      if i + |t| <= |Marker| {
        if Fold(Marker[i]) != t[0] {
          NotAt(Marker, i, t, 0);
        } else if Fold(Marker[i + 1]) != t[1] {
          NotAt(Marker, i, t, 1);
        } else {
          NotAt(Marker, i, t, 2);
        }
      }
    }
  }

  lemma MatchAfterPrefix(a: string, y: string, p: nat, t: string)
    requires p >= |a|
    ensures MatchesAt(a + y, p, t) ==> MatchesAt(y, p - |a|, t)
  {
    if MatchesAt(a + y, p, t) {
      forall j | 0 <= j < |t| ensures Fold(y[p - |a| + j]) == t[j] {
        assert (a + y)[p + j] == y[p - |a| + j];
      }
    }
  }

  lemma MatchInPrefix(a: string, y: string, p: nat, t: string)
    requires p + |t| <= |a|
    ensures MatchesAt(a + y, p, t) ==> MatchesAt(a, p, t)
  {
    if MatchesAt(a + y, p, t) {
      forall j | 0 <= j < |t| ensures Fold(a[p + j]) == t[j] {
        assert (a + y)[p + j] == a[p + j];
      }
    }
  }

  lemma OccursInSuffix(s: string, d: nat, t: string)
    requires d <= |s|
    ensures Occurs(s[d..], t) ==> Occurs(s, t)
  {
    if Occurs(s[d..], t) {
      var p :| 0 <= p <= |s[d..]| && MatchesAt(s[d..], p, t);
      forall j | 0 <= j < |t| ensures Fold(s[p + d + j]) == t[j] {
        assert s[d..][p + j] == s[p + d + j];
      }
      assert MatchesAt(s, p + d, t);
    }
  }

  /** A prefix of the redacted text that holds no '[' is the same prefix of the source text. */
  lemma {:induction false} SubPrefix(group: seq<string>, s: string, n: nat)
    requires NonEmptyTerms(group)
    ensures (n <= |Sub(group, s)| && forall j :: 0 <= j < n ==> Sub(group, s)[j] != '[')
            ==> n <= |s| && Sub(group, s)[..n] == s[..n]
    decreases |s|
  {
    if n > 0 && s != [] {
      match FirstAlternative(group, s)
      case Some(m) =>
        assert Sub(group, s) == Marker + Sub(group, s[|m|..]);
        assert Sub(group, s)[0] == '[';
      case None =>
        var rest := Sub(group, s[1..]);
        assert Sub(group, s) == [s[0]] + rest;
        SubPrefix(group, s[1..], n - 1);
        if n <= |Sub(group, s)| && forall j :: 0 <= j < n ==> Sub(group, s)[j] != '[' {
          forall j | 0 <= j < n - 1 ensures rest[j] != '[' {
            assert rest[j] == Sub(group, s)[j + 1];
          }
          assert Sub(group, s)[..n] == [s[0]] + rest[..n - 1];
          assert s[..n] == [s[0]] + s[1..][..n - 1];
        }
    }
  }

  /** A bracket-free literal matching the start of the redacted text matches the start of the source text. */
  lemma PrefixMatch(group: seq<string>, s: string, t: string)
    requires NonEmptyTerms(group)
    requires forall j :: 0 <= j < |t| ==> t[j] != '['
    ensures MatchesAt(Sub(group, s), 0, t) ==> MatchesAt(s, 0, t)
  {
    var out := Sub(group, s);
    if MatchesAt(out, 0, t) {
      forall j | 0 <= j < |t| ensures out[j] != '[' {
        assert Fold(out[0 + j]) == t[j];
      }
      SubPrefix(group, s, |t|);
      forall j | 0 <= j < |t| ensures Fold(s[0 + j]) == t[j] {
        assert out[..|t|][j] == s[..|t|][j];
        assert Fold(out[0 + j]) == t[j];
      }
    }
  }

  /**
   * After the substitution of `group`, no redactable term occurs: neither a
   * term of the group itself nor one that did not occur before.
   */
  lemma {:induction false} SubRemoves(group: seq<string>, s: string, t: string)
    requires NonEmptyTerms(group) && Redactable(t)
    requires t in group || !Occurs(s, t)
    ensures !Occurs(Sub(group, s), t)
    decreases |s|
  {
    var out := Sub(group, s);
    if s == [] {
      assert out == [];
    } else {
      match FirstAlternative(group, s)
      case Some(m) =>
        var rest := s[|m|..];
        OccursInSuffix(s, |m|, t);
        SubRemoves(group, rest, t);
        var tail := Sub(group, rest);
        assert out == Marker + tail;
        forall p | 0 <= p <= |out| ensures !MatchesAt(out, p, t) {
          if p >= |Marker| {
            MatchAfterPrefix(Marker, tail, p, t);
          } else if p + |t| <= |Marker| {
            MatchInPrefix(Marker, tail, p, t);
          } else {
            var j := |Marker| - 1 - p;
            assert out[p + j] == ']';
            NotAt(out, p, t, j);
          }
        }
      case None =>
        OccursInSuffix(s, 1, t);
        SubRemoves(group, s[1..], t);
        var tail := Sub(group, s[1..]);
        assert out == [s[0]] + tail;
        forall p | 0 <= p <= |out| ensures !MatchesAt(out, p, t) {
          if p >= 1 {
            MatchAfterPrefix([s[0]], tail, p, t);
          } else {
            PrefixMatch(group, s, t);
          }
        }
    }
  }

  /** A text in which no term of the group occurs is left unchanged. */
  lemma {:induction false} SubIdentity(group: seq<string>, s: string)
    requires NonEmptyTerms(group)
    requires forall k :: 0 <= k < |group| ==> !Occurs(s, group[k])
    ensures Sub(group, s) == s
    decreases |s|
  {
    if s != [] {
      forall k | 0 <= k < |group| ensures !MatchesAt(s, 0, group[k]) {
        assert !Occurs(s, group[k]);
      }
      forall k | 0 <= k < |group| ensures !Occurs(s[1..], group[k]) {
        OccursInSuffix(s, 1, group[k]);
      }
      SubIdentity(group, s[1..]);
      assert s == [s[0]] + s[1..];
    }
  }

  lemma {:induction false} SubAllIdentity(groups: seq<seq<string>>, s: string)
    requires AllNonEmpty(groups)
    requires forall g, k :: 0 <= g < |groups| && 0 <= k < |groups[g]| ==> !Occurs(s, groups[g][k])
    ensures SubAll(groups, s) == s
  {
    if groups != [] {
      var init := groups[..|groups| - 1];
      SubAllIdentity(init, s);
      SubIdentity(groups[|groups| - 1], s);
    }
  }

  /** moderate_response returns a text with no banned term unchanged. */
  lemma ModeratedIdentity(response: string)
    requires !Banned(response)
    ensures Moderated(response) == response
  {
    SubAllIdentity(BannedPatterns, response);
  }

  // ---------------------------------------------------------------------------
  // Table gating: re.findall(r'(?i)from\s+([a-z0-9_]+)', sql) and the same for join

  /** `\s`: the characters for which str.isspace() holds. */
  predicate IsSpace(c: char) {
    ('\t' <= c <= '\r') || ('\U{001C}' <= c <= '\U{001F}') || c == ' '
    || c == '\U{0085}' || c == '\U{00A0}' || c == '\U{1680}'
    || ('\U{2000}' <= c <= '\U{200A}') || c == '\U{2028}' || c == '\U{2029}'
    || c == '\U{202F}' || c == '\U{205F}' || c == '\U{3000}'
  }

  /** `[a-z0-9_]` under IGNORECASE. */
  predicate IsWordChar(c: char) {
    var f := Fold(c);
    ('a' <= f <= 'z') || ('0' <= f <= '9') || f == '_'
  }

  /** The end of the run of whitespace starting at `i`. */
  function SpaceEnd(s: string, i: nat): (r: nat)
    requires i <= |s|
    ensures i <= r <= |s|
    ensures forall p :: i <= p < r ==> IsSpace(s[p])
    ensures r == |s| || !IsSpace(s[r])
    decreases |s| - i
  {
    if i == |s| || !IsSpace(s[i]) then i else SpaceEnd(s, i + 1)
  }

  /** The end of the run of word characters starting at `i`. */
  function WordEnd(s: string, i: nat): (r: nat)
    requires i <= |s|
    ensures i <= r <= |s|
    ensures forall p :: i <= p < r ==> IsWordChar(s[p])
    ensures r == |s| || !IsWordChar(s[r])
    decreases |s| - i
  {
    if i == |s| || !IsWordChar(s[i]) then i else WordEnd(s, i + 1)
  }

  /**
   * The pattern `kw\s+([a-z0-9_]+)` tried at position `i`: the span of the
   * captured group. Both repetitions are greedy, and giving whitespace back
   * cannot help the group, so the match exists exactly when the keyword is
   * followed by whitespace and the whitespace by a word character.
   */
  function TryMatch(kw: string, s: string, i: nat): (r: Option<(nat, nat)>)
    requires i <= |s|
    ensures r.Some? <==>
      MatchesAt(s, i, kw) && i + |kw| < SpaceEnd(s, i + |kw|) < |s| && IsWordChar(s[SpaceEnd(s, i + |kw|)])
    ensures r.Some? ==> var (j, k) := r.value;
      && i + |kw| < j < k <= |s|
      && (forall p :: i + |kw| <= p < j ==> IsSpace(s[p]))
      && (forall p :: j <= p < k ==> IsWordChar(s[p]))
      && (k == |s| || !IsWordChar(s[k]))
  {
    if !MatchesAt(s, i, kw) then None
    else
      var j := SpaceEnd(s, i + |kw|);
      var k := WordEnd(s, j);
      if i + |kw| < j && j < k then Some((j, k)) else None
  }

  /** re.findall from position `i`: leftmost matches, each search resuming where the last match ended. */
  function FindAll(kw: string, s: string, i: nat): seq<string>
    requires i <= |s|
    decreases |s| - i
  {
    if i == |s| then []
    else
      match TryMatch(kw, s, i)
      case Some((j, k)) => [s[j..k]] + FindAll(kw, s, k)
      case None => FindAll(kw, s, i + 1)
  }

  /** tables_in_query: the `from` captures, then the `join` captures. */
  function Captures(sql: string): seq<string> {
    FindAll("from", sql, 0) + FindAll("join", sql, 0)
  }

  /** Every capture is a non-empty run of word characters. */
  lemma {:induction false} CapturesAreWords(kw: string, s: string, i: nat)
    requires i <= |s|
    ensures forall c :: c in FindAll(kw, s, i) ==>
              c != [] && forall p :: 0 <= p < |c| ==> IsWordChar(c[p])
    decreases |s| - i
  {
    if i < |s| {
      match TryMatch(kw, s, i)
      case Some((j, k)) => CapturesAreWords(kw, s, k);
      case None => CapturesAreWords(kw, s, i + 1);
    }
  }

  /** Without an occurrence of the keyword there is no capture. */
  lemma {:induction false} NoKeywordNoCapture(kw: string, s: string, i: nat)
    requires i <= |s|
    requires forall p :: i <= p <= |s| ==> !MatchesAt(s, p, kw)
    ensures FindAll(kw, s, i) == []
    decreases |s| - i
  {
    if i < |s| {
      NoKeywordNoCapture(kw, s, i + 1);
    }
  }

  const AllowedTables: seq<string> := ["clientes"]

  /** str.lower() of one character a capture can hold. */
  function LowerChar(c: char): string {
    if 'A' <= c <= 'Z' then [(c as int + 32) as char]
    else if c == '\U{212A}' then "k"
    else if c == '\U{0130}' then "i\U{0307}"
    else [c]
  }

  /** str.lower(), exact on strings of word characters. */
  function LowerCapture(s: string): string {
    if s == [] then [] else LowerChar(s[0]) + LowerCapture(s[1..])
  }

  predicate Permitted(table: string) {
    LowerCapture(table) in AllowedTables
  }

  function Denial(table: string): string {
    "Access to table '" + table + "' is not allowed."
  }

  /** validate_table_access */
  method ValidateTableAccess(sql: string) returns (allowed: bool, message: string)
    ensures allowed <==> forall k :: 0 <= k < |Captures(sql)| ==> Permitted(Captures(sql)[k])
    ensures allowed ==> message == ""
    ensures !allowed ==>
              exists k :: 0 <= k < |Captures(sql)| && !Permitted(Captures(sql)[k])
                && (forall h :: 0 <= h < k ==> Permitted(Captures(sql)[h]))
                && message == Denial(Captures(sql)[k])
  {
    var tables := FindAll("from", sql, 0);
    tables := tables + FindAll("join", sql, 0);
    assert tables == Captures(sql);
    for i := 0 to |tables|
      invariant forall h :: 0 <= h < i ==> Permitted(tables[h])
    {
      if LowerCapture(tables[i]) !in AllowedTables {
        return false, Denial(tables[i]);
      }
    }
    return true, "";
  }

  /** A stretch in which no character folds to the keyword's first letter holds no match. */
  lemma {:induction false} SkipStretch(kw: string, s: string, i: nat, j: nat)
    requires i <= j <= |s| && kw != []
    requires forall c :: c in s[i..j] ==> Fold(c) != kw[0]
    ensures FindAll(kw, s, i) == FindAll(kw, s, j)
    decreases j - i
  {
    if i < j {
      assert s[i..j][0] == s[i];
      assert !MatchesAt(s, i, kw) by {
        assert Fold(s[i + 0]) != kw[0];
      }
      forall c | c in s[i + 1..j] ensures Fold(c) != kw[0] {
        assert s[i + 1..j] == s[i..j][1..];
      }
      SkipStretch(kw, s, i + 1, j);
    }
  }

  /** A run of whitespace ends where the characters stop being whitespace. */
  lemma {:induction false} SpaceEndAt(s: string, i: nat, j: nat)
    requires i <= j <= |s|
    requires forall c :: c in s[i..j] ==> IsSpace(c)
    requires j == |s| || !IsSpace(s[j])
    ensures SpaceEnd(s, i) == j
    decreases j - i
  {
    if i < j {
      assert s[i..j][0] == s[i];
      assert s[i + 1..j] == s[i..j][1..];
      SpaceEndAt(s, i + 1, j);
    }
  }

  /** A run of word characters ends where the characters stop being word characters. */
  lemma {:induction false} WordEndAt(s: string, i: nat, j: nat)
    requires i <= j <= |s|
    requires forall c :: c in s[i..j] ==> IsWordChar(c)
    requires j == |s| || !IsWordChar(s[j])
    ensures WordEnd(s, i) == j
    decreases j - i
  {
    if i < j {
      assert s[i..j][0] == s[i];
      assert s[i + 1..j] == s[i..j][1..];
      WordEndAt(s, i + 1, j);
    }
  }

  /** The stretch at `i` folds to the keyword: it matches there. */
  lemma FoldedAt(kw: string, s: string, i: nat)
    requires i + |kw| <= |s|
    requires forall q :: 0 <= q < |kw| ==> Fold(s[i..i + |kw|][q]) == kw[q]
    ensures MatchesAt(s, i, kw)
  {
    forall q | 0 <= q < |kw| ensures Fold(s[i + q]) == kw[q] {
      assert s[i..i + |kw|][q] == s[i + q];
    }
  }

  /** No word character is whitespace. */
  lemma WordCharNotSpace(c: char)
    requires IsWordChar(c)
    ensures !IsSpace(c)
  {
  }

  /**
   * The keyword at `i`, whitespace up to `j` and a word up to `k`: findall
   * captures that word and resumes after it.
   */
  lemma CaptureAt(kw: string, s: string, i: nat, j: nat, k: nat)
    requires i + |kw| < j < k <= |s|
    requires forall q :: 0 <= q < |kw| ==> Fold(s[i..i + |kw|][q]) == kw[q]
    requires forall c :: c in s[i + |kw|..j] ==> IsSpace(c)
    requires forall c :: c in s[j..k] ==> IsWordChar(c)
    requires k == |s| || !IsWordChar(s[k])
    ensures FindAll(kw, s, i) == [s[j..k]] + FindAll(kw, s, k)
  {
    FoldedAt(kw, s, i);
    assert s[j..k][0] == s[j];
    WordCharNotSpace(s[j]);
    SpaceEndAt(s, i + |kw|, j);
    WordEndAt(s, j, k);
    assert TryMatch(kw, s, i) == Some((j, k));
  }

  /**
   * The query of the module's own demonstration,
   * "SELECT * FROM vendas JOIN clientes ON vendas.cliente_id = clientes.id",
   * written word by word.
   */
  const DemoQuery: string :=
    "SELECT * " + "FROM" + " " + "vendas" + " " + "JOIN" + " " + "clientes" + " ON vendas.cliente_id" + " = clientes.id"

  /** The demonstration query's words and the stretches between them. */
  predicate DemoLayout(sql: string) {
    |sql| == 69
    && sql[0..9] == "SELECT * "
    && sql[9..13] == "FROM" && sql[13..14] == " " && sql[14..20] == "vendas"
    && sql[20..21] == " "
    && sql[21..25] == "JOIN" && sql[25..26] == " " && sql[26..34] == "clientes"
    && sql[34..55] == " ON vendas.cliente_id" && sql[55..69] == " = clientes.id"
  }

  lemma DemoQueryLayout()
    ensures DemoLayout(DemoQuery)
  {
  }

  /** Only `f` and `F` fold to `f`, and only `j` and `J` to `j`. */
  lemma NoKeywordInitial(t: string)
    requires 'f' !in t && 'F' !in t && 'j' !in t && 'J' !in t
    ensures forall c :: c in t ==> Fold(c) != 'f' && Fold(c) != 'j'
  {
  }

  // The characters each stretch of the demonstration queries is made of.

  lemma SelectLetters()
    ensures forall c :: c in "SELECT * " ==> Fold(c) != 'f' && Fold(c) != 'j'
  {
    NoKeywordInitial("SELECT * ");
  }

  lemma VendasLetters()
    ensures forall c :: c in "vendas" ==> IsWordChar(c) && Fold(c) != 'f' && Fold(c) != 'j'
  {
    NoKeywordInitial("vendas");
  }

  lemma ClientesLetters()
    ensures forall c :: c in "clientes" ==> IsWordChar(c) && Fold(c) != 'f' && Fold(c) != 'j'
  {
    NoKeywordInitial("clientes");
  }

  lemma CapitalClientesLetters()
    ensures forall c :: c in "CLIENTES" ==> IsWordChar(c) && Fold(c) != 'f' && Fold(c) != 'j'
  {
    NoKeywordInitial("CLIENTES");
  }

  lemma OnLetters()
    ensures forall c :: c in " ON vendas.cliente_id" ==> Fold(c) != 'f' && Fold(c) != 'j'
  {
    NoKeywordInitial(" ON vendas.cliente_id");
  }

  lemma EqualsLetters()
    ensures forall c :: c in " = clientes.id" ==> Fold(c) != 'f' && Fold(c) != 'j'
  {
    NoKeywordInitial(" = clientes.id");
  }

  lemma KeywordLetters()
    ensures forall q :: 0 <= q < 4 ==> Fold("FROM"[q]) == "from"[q] && Fold("JOIN"[q]) == "join"[q]
    ensures forall c :: c in "JOIN" ==> Fold(c) != 'f'
    ensures forall c :: c in "FROM" ==> Fold(c) != 'j'
    ensures IsSpace(' ') && !IsWordChar(' ') && Fold(' ') != 'f' && Fold(' ') != 'j'
  {
  }

  /** The FROM clause: `vendas` is captured, and the search resumes after it. */
  lemma FromClause(sql: string)
    requires |sql| == 69 && sql[0..9] == "SELECT * "
    requires sql[9..13] == "FROM" && sql[13..14] == " " && sql[14..20] == "vendas" && sql[20..21] == " "
    ensures FindAll("from", sql, 0) == ["vendas"] + FindAll("from", sql, 20)
  {
    SelectLetters();
    VendasLetters();
    ClientesLetters();
    KeywordLetters();
    SkipStretch("from", sql, 0, 9);
    assert sql[20] == sql[20..21][0];
    CaptureAt("from", sql, 9, 14, 20);
  }

  /** After `vendas` there is no further FROM. */
  lemma NoFromAfter(sql: string)
    requires |sql| == 69 && sql[20..21] == " " && sql[21..25] == "JOIN" && sql[25..26] == " "
    requires sql[26..34] == "clientes" && sql[34..55] == " ON vendas.cliente_id" && sql[55..69] == " = clientes.id"
    ensures FindAll("from", sql, 20) == []
  {
    VendasLetters();
    ClientesLetters();
    OnLetters();
    EqualsLetters();
    KeywordLetters();
    SkipStretch("from", sql, 20, 21);
    SkipStretch("from", sql, 21, 25);
    SkipStretch("from", sql, 25, 26);
    SkipStretch("from", sql, 26, 34);
    SkipStretch("from", sql, 34, 55);
    SkipStretch("from", sql, 55, 69);
  }

  /** Before `JOIN` there is no JOIN. */
  lemma NoJoinBefore(sql: string)
    requires |sql| == 69 && sql[0..9] == "SELECT * "
    requires sql[9..13] == "FROM" && sql[13..14] == " " && sql[14..20] == "vendas" && sql[20..21] == " "
    ensures FindAll("join", sql, 0) == FindAll("join", sql, 21)
  {
    SelectLetters();
    VendasLetters();
    ClientesLetters();
    KeywordLetters();
    SkipStretch("join", sql, 0, 9);
    SkipStretch("join", sql, 9, 13);
    SkipStretch("join", sql, 13, 14);
    SkipStretch("join", sql, 14, 20);
    SkipStretch("join", sql, 20, 21);
  }

  /** The JOIN clause: `clientes` is captured, and nothing after it. */
  lemma JoinClause(sql: string)
    requires |sql| == 69 && sql[21..25] == "JOIN" && sql[25..26] == " " && sql[26..34] == "clientes"
    requires sql[34..55] == " ON vendas.cliente_id" && sql[55..69] == " = clientes.id"
    ensures FindAll("join", sql, 21) == ["clientes"]
  {
    VendasLetters();
    ClientesLetters();
    OnLetters();
    EqualsLetters();
    KeywordLetters();
    assert sql[34] == sql[34..55][0];
    CaptureAt("join", sql, 21, 26, 34);
    SkipStretch("join", sql, 34, 55);
    SkipStretch("join", sql, 55, 69);
  }

  /** Lower-casing leaves a capture alone when it holds no capital letter and no special letter. */
  lemma {:induction false} LowerCaptureSmall(s: string)
    requires forall c :: c in s ==> ('a' <= c <= 'z') || ('0' <= c <= '9') || c == '_'
    ensures LowerCapture(s) == s
  {
    if s != [] {
      assert s[0] in s;
      assert LowerChar(s[0]) == [s[0]];
      forall c | c in s[1..] ensures ('a' <= c <= 'z') || ('0' <= c <= '9') || c == '_' {
        assert c in s;
      }
      LowerCaptureSmall(s[1..]);
      assert s == [s[0]] + s[1..];
    }
  }

  /** `clientes` is the one allowed table. */
  lemma ClientesPermitted()
    ensures Permitted("clientes")
  {
    LowerCaptureSmall("clientes");
  }

  lemma VendasNotPermitted()
    ensures !Permitted("vendas")
  {
    LowerCaptureSmall("vendas");
  }

  /**
   * The demonstration query is refused: it names `vendas` and then
   * `clientes`, and only the second is allowed, so the message names `vendas`.
   */
  lemma DemoQueryTables()
    ensures Captures(DemoQuery) == ["vendas", "clientes"]
    ensures !Permitted("vendas") && Permitted("clientes")
  {
    var sql := DemoQuery;
    DemoQueryLayout();
    FromClause(sql);
    NoFromAfter(sql);
    NoJoinBefore(sql);
    JoinClause(sql);
    ClientesPermitted();
    VendasNotPermitted();
  }

  /** Lower-casing a capture folds each of its ASCII capitals. */
  lemma {:induction false} LowerCaptureAscii(s: string)
    requires forall c :: c in s ==> ('a' <= c <= 'z') || ('A' <= c <= 'Z') || ('0' <= c <= '9') || c == '_'
    ensures |LowerCapture(s)| == |s| && forall i :: 0 <= i < |s| ==> LowerCapture(s)[i] == Fold(s[i])
  {
    if s != [] {
      assert s[0] in s;
      forall c | c in s[1..] ensures ('a' <= c <= 'z') || ('A' <= c <= 'Z') || ('0' <= c <= '9') || c == '_' {
        assert c in s;
      }
      LowerCaptureAscii(s[1..]);
      assert LowerChar(s[0]) == [Fold(s[0])];
    }
  }

  /** The allow-list check ignores case: `CLIENTES` is allowed. */
  lemma CapitalClientesPermitted()
    ensures Permitted("CLIENTES")
  {
    LowerCaptureAscii("CLIENTES");
    assert LowerCapture("CLIENTES") == "clientes";
  }

  /** The FROM clause names `CLIENTES` and ends the query. */
  lemma CapitalFrom(sql: string)
    requires |sql| == 22 && sql[0..9] == "SELECT * " && sql[9..13] == "FROM" && sql[13..14] == " "
    requires sql[14..22] == "CLIENTES"
    ensures FindAll("from", sql, 0) == ["CLIENTES"]
  {
    SelectLetters();
    KeywordLetters();
    CapitalClientesLetters();
    SkipStretch("from", sql, 0, 9);
    CaptureAt("from", sql, 9, 14, 22);
  }

  /** There is no JOIN. */
  lemma CapitalNoJoin(sql: string)
    requires |sql| == 22 && sql[0..9] == "SELECT * " && sql[9..13] == "FROM" && sql[13..14] == " "
    requires sql[14..22] == "CLIENTES"
    ensures FindAll("join", sql, 0) == []
  {
    SelectLetters();
    KeywordLetters();
    CapitalClientesLetters();
    SkipStretch("join", sql, 0, 9);
    SkipStretch("join", sql, 9, 13);
    SkipStretch("join", sql, 13, 14);
    SkipStretch("join", sql, 14, 22);
  }

  /** "SELECT * FROM CLIENTES", written word by word. */
  const CapitalQuery: string := "SELECT * " + "FROM" + " " + "CLIENTES"

  /** A query naming the allowed table in capitals is allowed. */
  lemma CapitalQueryAllowed()
    ensures Captures(CapitalQuery) == ["CLIENTES"] && Permitted("CLIENTES")
  {
    var sql := CapitalQuery;
    assert |sql| == 22 && sql[0..9] == "SELECT * " && sql[9..13] == "FROM" && sql[13..14] == " "
      && sql[14..22] == "CLIENTES";
    CapitalFrom(sql);
    CapitalNoJoin(sql);
    CapitalClientesPermitted();
  }

  /** A query without FROM or JOIN is allowed. */
  lemma NoTablesAllowed(sql: string)
    requires forall p :: 0 <= p <= |sql| ==> !MatchesAt(sql, p, "from") && !MatchesAt(sql, p, "join")
    ensures Captures(sql) == []
  {
    NoKeywordNoCapture("from", sql, 0);
    NoKeywordNoCapture("join", sql, 0);
  }
}
