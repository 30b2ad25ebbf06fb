/**
 * Case-identifier extraction (lib/testrail.ts, getCaseIDsFromTags and getCaseIDsFromTitle).
 *
 * A scenario names the remote test cases it exercises either by tags such as `@C1234` or by
 * tokens such as `C42` or `TC42` in its title.
 */
module CaseIds {
  import opened Wrappers
  import opened Text

  // ---------------------------------------------------------------------------------------
  // Tags: `tag.match(/^@C\d(\d+)$/)`
  // ---------------------------------------------------------------------------------------

  /** The whole tag is `@C` followed by at least two decimal digits. */
  predicate IsCaseTag(tag: string) {
    |tag| >= 4 && tag[0] == '@' && tag[1] == 'C' && AllDigits(tag[2..])
  }

  /** `Number(tag.replace("@C", "").trim())`: the numeric suffix of a case tag. */
  function TagCaseId(tag: string): nat
    requires IsCaseTag(tag)
  {
    DecimalValue(tag[2..])
  }

  /** `tags.filter(...)`: the case tags, in their original order, duplicates kept. */
  function CaseTags(tags: seq<string>): (r: seq<string>)
    ensures |r| <= |tags|
    ensures forall k :: 0 <= k < |r| ==> IsCaseTag(r[k])
  {
    if tags == [] then []
    else CaseTags(tags[..|tags| - 1]) + (if IsCaseTag(tags[|tags| - 1]) then [tags[|tags| - 1]] else [])
  }

  /** The suffixes of the case tags, in order: what tag extraction returns. */
  function TagIds(tags: seq<string>): seq<nat> {
    var caseTags := CaseTags(tags);
    seq(|caseTags|, k requires 0 <= k < |caseTags| => TagCaseId(caseTags[k]))
  }

  /**
   * getCaseIDsFromTags: keeps the case tags, then pushes each one's numeric suffix.
   * (Joining the kept tags with commas and splitting them again is the identity here, since a
   * case tag holds no comma; it only turns an empty selection into `[""]`, which is skipped.)
   */
  method CaseIdsFromTags(tags: seq<string>) returns (caseIds: seq<nat>)
    ensures caseIds == TagIds(tags)
  {
    var caseTags: seq<string> := [];
    for i := 0 to |tags|
      invariant caseTags == CaseTags(tags[..i])
    {
      assert tags[..i + 1][..i] == tags[..i];
      if IsCaseTag(tags[i]) {
        caseTags := caseTags + [tags[i]];
      }
    }
    assert tags[..|tags|] == tags;
    caseIds := [];
    for j := 0 to |caseTags|
      invariant |caseIds| == j
      invariant forall k :: 0 <= k < j ==> caseIds[k] == TagCaseId(caseTags[k])
    {
      caseIds := caseIds + [TagCaseId(caseTags[j])];
    }
  }

  /** Number of tags in `tags` that are case tags. */
  function CountCaseTags(tags: seq<string>): nat {
    if tags == [] then 0 else CountCaseTags(tags[1..]) + (if IsCaseTag(tags[0]) then 1 else 0)
  }

  lemma {:induction false} CaseTagsConcat(a: seq<string>, b: seq<string>)
    ensures CaseTags(a + b) == CaseTags(a) + CaseTags(b)
    decreases |b|
  {
    if b == [] {
      assert a + b == a;
    } else {
      var b' := b[..|b| - 1];
      assert (a + b)[..|a + b| - 1] == a + b';
      CaseTagsConcat(a, b');
    }
  }

  /** Extraction distributes over concatenation of tag lists: it keeps the order of the tags. */
  lemma TagIdsConcat(a: seq<string>, b: seq<string>)
    ensures TagIds(a + b) == TagIds(a) + TagIds(b)
  {
    CaseTagsConcat(a, b);
  }

  /** A single tag yields its suffix when it is a case tag and nothing otherwise. */
  lemma TagIdsSingle(tag: string)
    ensures TagIds([tag]) == if IsCaseTag(tag) then [TagCaseId(tag)] else []
  {
    assert [tag][..0] == [];
  }

  lemma {:induction false} CaseTagsMembers(tags: seq<string>, t: string)
    ensures t in CaseTags(tags) <==> t in tags && IsCaseTag(t)
    decreases |tags|
  {
    if tags != [] {
      var init := tags[..|tags| - 1];
      assert tags == init + [tags[|tags| - 1]];
      CaseTagsMembers(init, t);
    }
  }

  lemma {:induction false} CaseTagsCount(tags: seq<string>)
    ensures |CaseTags(tags)| == CountCaseTags(tags)
    decreases |tags|
  {
    if tags != [] {
      CaseTagsConcat([tags[0]], tags[1..]);
      assert [tags[0]] + tags[1..] == tags;
      assert [tags[0]][..0] == [];
      CaseTagsCount(tags[1..]);
    }
  }

  /**
   * An id is extracted exactly when some case tag carries it; one id comes out per case tag,
   * so never more ids than tags.
   */
  lemma TagIdsExactly(tags: seq<string>, id: nat)
    ensures id in TagIds(tags) <==> exists t :: t in tags && IsCaseTag(t) && TagCaseId(t) == id
    ensures |TagIds(tags)| == CountCaseTags(tags) <= |tags|
  {
    var caseTags := CaseTags(tags);
    CaseTagsCount(tags);
    if id in TagIds(tags) {
      var k :| 0 <= k < |caseTags| && TagIds(tags)[k] == id;
      CaseTagsMembers(tags, caseTags[k]);
    }
    if t :| t in tags && IsCaseTag(t) && TagCaseId(t) == id {
      CaseTagsMembers(tags, t);
      var k :| 0 <= k < |caseTags| && caseTags[k] == t;
      assert TagIds(tags)[k] == id;
    }
  }

  /** With no case tag among them, the tags yield nothing. */
  lemma {:induction false} NoCaseTagNoIds(tags: seq<string>)
    requires forall t :: t in tags ==> !IsCaseTag(t)
    ensures TagIds(tags) == []
    decreases |tags|
  {
    if tags != [] {
      var init := tags[..|tags| - 1];
      assert forall t :: t in init ==> t in tags;
      NoCaseTagNoIds(init);
    }
  }

  // ---------------------------------------------------------------------------------------
  // Title: `/\bT?C(\d+)\b/g` applied with `exec` until it returns null
  // ---------------------------------------------------------------------------------------

  /** A word character stands at index `i` (outside the string there is none). */
  predicate IsWordAt(s: string, i: int) {
    0 <= i < |s| && IsWordChar(s[i])
  }

  /** `\b` at position `i`: a word character on exactly one side of it. */
  predicate IsBoundary(s: string, i: int) {
    IsWordAt(s, i - 1) != IsWordAt(s, i)
  }

  /** Where the run of digits starting at `i` ends (what greedy `\d*` consumes). */
  function DigitRunEnd(s: string, i: nat): (e: nat)
    requires i <= |s|
    ensures i <= e <= |s|
    ensures forall k :: i <= k < e ==> IsDigit(s[k])
    ensures e < |s| ==> !IsDigit(s[e])
    decreases |s| - i
  {
    if i < |s| && IsDigit(s[i]) then DigitRunEnd(s, i + 1) else i
  }

  /**
   * Backtracking of greedy `\d+` followed by `\b`: the candidate ends are tried from `q` down
   * to `lo`, and the first one at a boundary is taken.
   */
  function BacktrackEnd(s: string, lo: nat, q: nat): (r: Option<nat>)
    requires 1 <= lo
    ensures r.Some? ==> lo <= r.value <= q && IsBoundary(s, r.value)
    decreases q
  {
    if q < lo then None
    else if IsBoundary(s, q) then Some(q)
    else BacktrackEnd(s, lo, q - 1)
  }

  /** A match of the title pattern: where it starts and ends, and its digit group `m[1]`. */
  datatype Match = Match(start: nat, end: nat, group: string)

  /** `(\d+)\b` with the digit group starting at `d`, for a match starting at `p`. */
  function GroupFrom(s: string, p: nat, d: nat): (m: Option<Match>)
    requires p < d <= |s|
    ensures m.Some? ==> m.value.start == p && d < m.value.end <= |s|
    ensures m.Some? ==> m.value.group == s[d..m.value.end] && AllDigits(m.value.group)
  {
    var e := DigitRunEnd(s, d);
    if e == d then None
    else
      match BacktrackEnd(s, d + 1, e)
      case None => None
      case Some(q) => Some(Match(p, q, s[d..q]))
  }

  /** The match of `\bT?C(\d+)\b` starting at position `p`, if any (`T?` tries the `T` first). */
  function MatchAt(s: string, p: nat): (m: Option<Match>)
    requires p <= |s|
    ensures m.Some? ==> m.value.start == p < m.value.end <= |s|
    ensures m.Some? ==> |m.value.group| >= 1 && AllDigits(m.value.group)
  {
    if !IsBoundary(s, p) then None
    else
      var withT := if p + 1 < |s| && s[p] == 'T' && s[p + 1] == 'C' then GroupFrom(s, p, p + 2) else None;
      if withT.Some? then withT
      else if p < |s| && s[p] == 'C' then GroupFrom(s, p, p + 1)
      else None
  }

  /** `exec` from `lastIndex == from`: the leftmost match starting at or after `from`. */
  function NextMatch(s: string, from: nat): (r: Option<Match>)
    requires from <= |s|
    ensures r.Some? ==> from <= r.value.start <= |s| && MatchAt(s, r.value.start) == r
    ensures r.Some? ==> forall p :: from <= p < r.value.start ==> MatchAt(s, p).None?
    ensures r.None? ==> forall p :: from <= p <= |s| ==> MatchAt(s, p).None?
    decreases |s| - from
  {
    match MatchAt(s, from)
    case Some(m) => Some(m)
    case None => if from == |s| then None else NextMatch(s, from + 1)
  }

  /** The ids the global `exec` loop collects when it starts at `from`. */
  function TitleIdsFrom(s: string, from: nat): seq<nat>
    requires from <= |s|
    decreases |s| - from
  {
    match NextMatch(s, from)
    case None => []
    case Some(m) => [DecimalValue(m.group)] + TitleIdsFrom(s, m.end)
  }

  /** What title extraction returns. */
  function TitleIds(title: string): seq<nat> {
    TitleIdsFrom(title, 0)
  }

  /** getCaseIDsFromTitle: `exec` with the global flag, resuming at `lastIndex`, until no match. */
  method CaseIdsFromTitle(title: string) returns (caseIds: seq<nat>)
    ensures caseIds == TitleIds(title)
  {
    caseIds := [];
    var lastIndex := 0;
    while true
      invariant lastIndex <= |title|
      invariant caseIds + TitleIdsFrom(title, lastIndex) == TitleIds(title)
      decreases |title| - lastIndex
    {
      var m := NextMatch(title, lastIndex);
      if m.None? {
        break;
      }
      caseIds := caseIds + [DecimalValue(m.value.group)];
      lastIndex := m.value.end;
    }
  }

  // ---------------------------------------------------------------------------------------
  // Reference reading of the title pattern: whole words of the form T?C<digits>
  // ---------------------------------------------------------------------------------------

  /** Length of the run of word characters at the front of `s`. */
  function WordLength(s: string): (n: nat)
    ensures n <= |s|
    ensures forall k :: 0 <= k < n ==> IsWordChar(s[k])
    ensures n < |s| ==> !IsWordChar(s[n])
  {
    if s != [] && IsWordChar(s[0]) then 1 + WordLength(s[1..]) else 0
  }

  /** The maximal runs of word characters of `s`, left to right. */
  function Words(s: string): seq<string>
    decreases |s|
  {
    if s == [] then []
    else
      var n := WordLength(s);
      if n == 0 then Words(s[1..]) else [s[..n]] + Words(s[n..])
  }

  /** A word of the form `C<digits>` or `TC<digits>`, at least one digit. */
  predicate IsCaseToken(w: string) {
    || (|w| >= 2 && w[0] == 'C' && AllDigits(w[1..]))
    || (|w| >= 3 && w[0] == 'T' && w[1] == 'C' && AllDigits(w[2..]))
  }

  function TokenDigits(w: string): string
    requires IsCaseToken(w)
  {
    if w[0] == 'C' then w[1..] else w[2..]
  }

  /** The ids of the case tokens among `words`, in order. */
  function TokenIds(words: seq<string>): seq<nat> {
    if words == [] then []
    else
      var w := words[0];
      var d := if IsCaseToken(w) then TokenDigits(w) else "";
      (if IsCaseToken(w) then [DecimalValue(d)] else []) + TokenIds(words[1..])
  }

  /** Between digits there is no boundary, so backtracking into a digit run finds no end. */
  lemma {:induction false} BacktrackInsideWord(s: string, lo: nat, q: nat)
    requires 1 <= lo
    requires forall k :: lo - 1 <= k <= q ==> IsWordAt(s, k)
    ensures BacktrackEnd(s, lo, q) == None
    decreases q
  {
    if q >= lo {
      assert IsWordAt(s, q - 1) && IsWordAt(s, q);
      BacktrackInsideWord(s, lo, q - 1);
    }
  }

  /**
   * Inside a word `s[p..e]`, the digit group starting at `d` matches exactly when the rest of
   * the word is all digits: a shorter digit run would have to end before a word character.
   */
  lemma GroupFromWord(s: string, p: nat, d: nat, e: nat)
    requires p < d <= e <= |s|
    requires forall k :: d <= k < e ==> IsWordChar(s[k])
    requires e < |s| ==> !IsWordChar(s[e])
    ensures GroupFrom(s, p, d) == if d < e && AllDigits(s[d..e]) then Some(Match(p, e, s[d..e])) else None
  {
    var end := DigitRunEnd(s, d);
    if end == d {
      if d < e {
        assert s[d..e][0] == s[d];
      }
    } else if end == e {
      assert IsWordAt(s, e - 1);
      assert IsBoundary(s, e);
      assert AllDigits(s[d..e]) by {
        forall i | 0 <= i < e - d ensures IsDigit(s[d..e][i]) {
          assert s[d..e][i] == s[d + i];
        }
      }
    } else {
      assert forall k :: d <= k <= end ==> IsWordAt(s, k);
      BacktrackInsideWord(s, d + 1, end);
      assert s[d..e][end - d] == s[end];
    }
  }

  /** At the start of a word `s[p..e]`, the pattern matches exactly when the word is a case token. */
  lemma MatchAtWordStart(s: string, p: nat, e: nat)
    requires p < e <= |s|
    requires !IsWordAt(s, p - 1)
    requires forall k :: p <= k < e ==> IsWordChar(s[k])
    requires e < |s| ==> !IsWordChar(s[e])
    ensures var w := s[p..e];
      MatchAt(s, p) == if IsCaseToken(w) then Some(Match(p, e, TokenDigits(w))) else None
  {
    var w := s[p..e];
    assert IsBoundary(s, p);
    if p + 1 < |s| && s[p] == 'T' && s[p + 1] == 'C' {
      assert p + 1 < e;
      GroupFromWord(s, p, p + 2, e);
      assert w[2..] == s[p + 2..e];
    } else if s[p] == 'C' {
      GroupFromWord(s, p, p + 1, e);
      assert w[1..] == s[p + 1..e];
    } else if s[p] == 'T' && e >= p + 2 {
      assert w[1] == s[p + 1];
    }
  }

  /** No match starts strictly inside a word. */
  lemma NoMatchInsideWord(s: string, p: nat)
    requires 0 < p <= |s|
    requires IsWordAt(s, p - 1) && IsWordAt(s, p)
    ensures MatchAt(s, p).None?
  {
  }

  /** `exec` skips a stretch of positions where nothing matches. */
  lemma NextMatchSkips(s: string, from: nat, to: nat)
    requires from <= to <= |s|
    requires forall p :: from <= p < to ==> MatchAt(s, p).None?
    ensures NextMatch(s, from) == NextMatch(s, to)
  {
    var a := NextMatch(s, from);
    var b := NextMatch(s, to);
    if a.Some? {
      assert to <= a.value.start;
      assert b.Some?;
      assert b.value.start == a.value.start;
    } else {
      assert b.None?;
    }
  }

  /** Past a non-word character, neither the scan nor the words change. */
  lemma ScanPastNonWord(s: string, from: nat)
    requires from < |s| && !IsWordChar(s[from])
    ensures TitleIdsFrom(s, from) == TitleIdsFrom(s, from + 1)
    ensures Words(s[from..]) == Words(s[from + 1..])
  {
    var rest := s[from..];
    assert MatchAt(s, from).None?;
    NextMatchSkips(s, from, from + 1);
    assert WordLength(rest) == 0;
    assert rest[1..] == s[from + 1..];
  }

  /** The word `s[from..e]` is split off the rest of the string. */
  lemma WordsAtWord(s: string, from: nat, e: nat)
    requires from < e <= |s|
    requires e == from + WordLength(s[from..])
    ensures Words(s[from..]) == [s[from..e]] + Words(s[e..])
  {
    var rest := s[from..];
    var n := WordLength(rest);
    assert rest[..n] == s[from..e];
    assert rest[n..] == s[e..];
  }

  /** No match starts strictly inside the word `s[from..e]`. */
  lemma NoMatchInWordTail(s: string, from: nat, e: nat)
    requires from < e <= |s|
    requires forall k :: from <= k < e ==> IsWordChar(s[k])
    ensures forall p :: from < p < e ==> MatchAt(s, p).None?
  {
    forall p | from < p < e ensures MatchAt(s, p).None? {
      NoMatchInsideWord(s, p);
    }
  }

  /** At the start of a word, the scan takes the word's id if it is a case token, and resumes after it. */
  lemma ScanAtWord(s: string, from: nat, e: nat)
    requires from < e <= |s|
    requires !IsWordAt(s, from - 1)
    requires forall k :: from <= k < e ==> IsWordChar(s[k])
    requires e < |s| ==> !IsWordChar(s[e])
    ensures TitleIdsFrom(s, from) == TokenIds([s[from..e]]) + TitleIdsFrom(s, e)
  {
    MatchAtWordStart(s, from, e);
    if IsCaseToken(s[from..e]) {
      ScanAtToken(s, from, e);
    } else {
      ScanAtNonToken(s, from, e);
    }
  }

  lemma ScanAtToken(s: string, from: nat, e: nat)
    requires from < e <= |s|
    requires IsCaseToken(s[from..e])
    requires MatchAt(s, from) == Some(Match(from, e, TokenDigits(s[from..e])))
    ensures TitleIdsFrom(s, from) == TokenIds([s[from..e]]) + TitleIdsFrom(s, e)
  {
    var w := s[from..e];
    var m := Match(from, e, TokenDigits(w));
    assert NextMatch(s, from) == Some(m);
    assert TokenIds([w]) == [DecimalValue(m.group)];
  }

  lemma ScanAtNonToken(s: string, from: nat, e: nat)
    requires from < e <= |s|
    requires !IsCaseToken(s[from..e])
    requires forall k :: from <= k < e ==> IsWordChar(s[k])
    requires MatchAt(s, from).None?
    ensures TitleIdsFrom(s, from) == TokenIds([s[from..e]]) + TitleIdsFrom(s, e)
  {
    NoMatchInWordTail(s, from, e);
    NextMatchSkips(s, from, e);
    assert TokenIds([s[from..e]]) == [];
  }

  /** The scan from any position not strictly inside a word collects the case tokens of the rest. */
  lemma {:induction false} ScanCollectsTokens(s: string, from: nat)
    requires from <= |s|
    requires !(IsWordAt(s, from - 1) && IsWordAt(s, from))
    ensures TitleIdsFrom(s, from) == TokenIds(Words(s[from..]))
    decreases |s| - from
  {
    if from == |s| {
      assert MatchAt(s, from).None?;
      assert s[from..] == [];
    } else if !IsWordChar(s[from]) {
      ScanPastNonWord(s, from);
      ScanCollectsTokens(s, from + 1);
    } else {
      var rest := s[from..];
      var e := from + WordLength(rest);
      forall k | from <= k < e ensures IsWordChar(s[k]) {
        assert s[k] == rest[k - from];
      }
      if e < |s| {
        assert s[e] == rest[e - from];
      }
      WordsAtWord(s, from, e);
      ScanAtWord(s, from, e);
      ScanCollectsTokens(s, e);
      TokenIdsConcat([s[from..e]], Words(s[e..]));
    }
  }

  /** The ids of the case tokens of two lists of words, one after the other. */
  lemma TokenIdsConcat(a: seq<string>, b: seq<string>)
    requires |a| == 1
    ensures TokenIds(a + b) == TokenIds(a) + TokenIds(b)
  {
    assert (a + b)[1..] == b;
    assert a[1..] == [];
  }

  /**
   * Title extraction returns, left to right, the digits of every whole word of the title that
   * reads `C<digits>` or `TC<digits>`: the boundaries and backtracking of `\bT?C(\d+)\b` admit
   * a token only when it is bounded by non-word characters or the ends of the title.
   */
  lemma TitleIdsAreCaseTokens(title: string)
    ensures TitleIds(title) == TokenIds(Words(title))
  {
    assert title[0..] == title;
    ScanCollectsTokens(title, 0);
  }

  lemma {:induction false} TokenIdsEmpty(words: seq<string>)
    ensures TokenIds(words) == [] <==> forall w :: w in words ==> !IsCaseToken(w)
    decreases |words|
  {
    if words != [] {
      TokenIdsEmpty(words[1..]);
      assert forall w :: w in words[1..] ==> w in words;
      assert forall w :: w in words ==> w == words[0] || w in words[1..];
    }
  }

  /** A title yields no id exactly when none of its words is a case token. */
  lemma TitleIdsEmpty(title: string)
    ensures TitleIds(title) == [] <==> forall w :: w in Words(title) ==> !IsCaseToken(w)
  {
    TitleIdsAreCaseTokens(title);
    TokenIdsEmpty(Words(title));
  }
}
