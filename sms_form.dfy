/** Placeholder validation for SMS templates (src/utils/smsForm.ts).

    A template uses placeholders written `$$<name>$$`. The global regex
    `/\$\$[^$]+\$\$/g` collects every such token, scanning left to right
    without overlap, and the template is rejected when a collected token is
    not the `value` of some allowed placeholder. */
module SmsForm {
  import opened Js

  /** One entry of the allowed-placeholder list (`ISmsFormPlaceholder`). */
  datatype Placeholder = Placeholder(
    kind: string,
    key: string,
    value: string,
    description: string,
    isUse: int,
    createdAt: string,
    updatedAt: string,
    deletedAt: Option<string>)

  /** The half-open range [start, end) of the template that one regex match covers. */
  datatype Span = Span(start: nat, end: nat)

  /** What `validateSmsFormPlaceholders` does: return normally, or throw an Error with a message. */
  datatype Outcome = Pass | Fail(message: string)

  const InvalidMessagePrefix: string := "유효하지 않은 치환자가 있습니다: "

  /** A whole string the regex `\$\$[^$]+\$\$` accepts: `$$`, at least one non-`$` character, `$$`. */
  predicate IsToken(t: string) {
    && |t| >= 5
    && t[0] == '$' && t[1] == '$'
    && t[|t| - 2] == '$' && t[|t| - 1] == '$'
    && forall k | 2 <= k < |t| - 2 :: t[k] != '$'
  }

  /** Some substring of the template is a token. */
  ghost predicate ContainsToken(s: string) {
    exists a, b | 0 <= a < b <= |s| :: IsToken(s[a..b])
  }

  /** The first `$` at or after position k, or |s| when there is none. */
  function NextDollar(s: string, k: nat): (j: nat)
    requires k <= |s|
    ensures k <= j <= |s|
    ensures j < |s| ==> s[j] == '$'
    ensures forall m | k <= m < j :: s[m] != '$'
    decreases |s| - k
  {
    if k == |s| || s[k] == '$' then k else NextDollar(s, k + 1)
  }

  /** The regex tried at position i. `[^$]+` runs to the next `$` (backtracking
      would leave a non-`$` character where `$$` must follow), so at most one
      match starts at i; the result is its end. */
  function MatchAt(s: string, i: nat): (e: Option<nat>)
    requires i <= |s|
    ensures e.Some? ==> i < e.value <= |s| && IsToken(s[i..e.value])
  {
    if i + 2 <= |s| && s[i] == '$' && s[i + 1] == '$' then
      var j := NextDollar(s, i + 2);
      if i + 2 < j && j + 2 <= |s| && s[j + 1] == '$' then Some(j + 2) else None
    else None
  }

  /** The global scan from position i: try a match at i; on success resume
      after it, otherwise advance by one character. */
  function Scan(s: string, i: nat): (spans: seq<Span>)
    requires i <= |s|
    ensures forall k | 0 <= k < |spans| ::
      i <= spans[k].start < spans[k].end <= |s| && IsToken(s[spans[k].start..spans[k].end])
    ensures forall k | 0 <= k < |spans| - 1 :: spans[k].end <= spans[k + 1].start
    decreases |s| - i
  {
    if i == |s| then []
    else match MatchAt(s, i)
      case Some(e) => [Span(i, e)] + Scan(s, e)
      case None => Scan(s, i + 1)
  }

  /** `smsForm.match(SMS_FORM_PLACEHOLDER_REGEX) || []`: the matched tokens in order. */
  function MatchAll(s: string): (tokens: seq<string>)
    ensures |tokens| == |Scan(s, 0)|
    ensures forall k | 0 <= k < |tokens| ::
      tokens[k] == s[Scan(s, 0)[k].start..Scan(s, 0)[k].end] && IsToken(tokens[k])
  {
    var spans := Scan(s, 0);
    seq(|spans|, k requires 0 <= k < |spans| => s[spans[k].start..spans[k].end])
  }

  /** `placeholders.some(p => p.value === used)`. */
  predicate Allowed(placeholders: seq<Placeholder>, used: string) {
    exists p | p in placeholders :: p.value == used
  }

  /** The `value` fields of the allowed list, the only field `some` compares. */
  function Values(placeholders: seq<Placeholder>): set<string> {
    set p | p in placeholders :: p.value
  }

  /** `used.filter(u => !placeholders.some(p => p.value === u))`. */
  function InvalidOf(used: seq<string>, placeholders: seq<Placeholder>): (invalid: seq<string>)
    ensures forall t | t in invalid :: t in used && !Allowed(placeholders, t)
    ensures forall t | t in used && !Allowed(placeholders, t) :: t in invalid
  {
    if used == [] then []
    else
      (if Allowed(placeholders, used[0]) then [] else [used[0]]) + InvalidOf(used[1..], placeholders)
  }

  /** `Array.prototype.join`. */
  function Join(parts: seq<string>, sep: string): string {
    if |parts| == 0 then ""
    else if |parts| == 1 then parts[0]
    else parts[0] + sep + Join(parts[1..], sep)
  }

  /** `validateSmsFormPlaceholders(smsForm, placeholders)`. */
  function ValidateSmsFormPlaceholders(smsForm: string, placeholders: seq<Placeholder>): (r: Outcome)
    ensures r.Pass? <==> forall t | t in MatchAll(smsForm) :: Allowed(placeholders, t)
    ensures r.Fail? ==>
      r.message == InvalidMessagePrefix + Join(InvalidOf(MatchAll(smsForm), placeholders), ", ")
  {
    var used := MatchAll(smsForm);
    var invalid := InvalidOf(used, placeholders);
    if |invalid| > 0 then
      assert invalid[0] in invalid;
      Fail(InvalidMessagePrefix + Join(invalid, ", "))
    else
      Pass
  }

  // ---------------------------------------------------------------------------
  // The scan

  /** A token occurrence at a is exactly what the regex matches when tried at a. */
  lemma TokenMatchesAt(s: string, a: nat, b: nat)
    requires a < b <= |s| && IsToken(s[a..b])
    ensures MatchAt(s, a) == Some(b)
  {
  }

  /** Some span of the list contains position a. */
  ghost predicate Covers(spans: seq<Span>, a: nat) {
    exists k | 0 <= k < |spans| :: spans[k].start <= a < spans[k].end
  }

  lemma CoversPrepend(first: Span, rest: seq<Span>, a: nat)
    requires Covers(rest, a)
    ensures Covers([first] + rest, a)
  {
    var k :| 0 <= k < |rest| && rest[k].start <= a < rest[k].end;
    assert ([first] + rest)[k + 1] == rest[k];
  }

  /** Every token occurrence in s[i..] starts inside some span the scan from i returns:
      the regex never skips past a place where a token begins. */
  lemma {:induction false} ScanCoversOccurrence(s: string, i: nat, a: nat, b: nat)
    requires i <= a < b <= |s| && IsToken(s[a..b])
    ensures Covers(Scan(s, i), a)
    decreases |s| - i
  {
    var m := MatchAt(s, i);
    if m.Some? {
      var e := m.value;
      assert Scan(s, i) == [Span(i, e)] + Scan(s, e);
      if a < e {
        assert Scan(s, i)[0] == Span(i, e);
      } else {
        ScanCoversOccurrence(s, e, a, b);
        CoversPrepend(Span(i, e), Scan(s, e), a);
      }
    } else {
      if i == a {
        TokenMatchesAt(s, a, b);
      }
      assert Scan(s, i) == Scan(s, i + 1);
      ScanCoversOccurrence(s, i + 1, a, b);
    }
  }

  /** The regex finds no token exactly when the template contains none. */
  lemma MatchAllEmptyIffTokenFree(s: string)
    ensures MatchAll(s) == [] <==> !ContainsToken(s)
  {
    if ContainsToken(s) {
      var a, b :| 0 <= a < b <= |s| && IsToken(s[a..b]);
      ScanCoversOccurrence(s, 0, a, b);
    }
    if MatchAll(s) != [] {
      var span := Scan(s, 0)[0];
      assert IsToken(s[span.start..span.end]);
    }
  }

  /** The extracted tokens occupy disjoint ranges of the template, in left-to-right order. */
  lemma {:induction false} MatchesInOrderWithoutOverlap(s: string, k: nat, l: nat)
    requires k < l < |Scan(s, 0)|
    ensures Scan(s, 0)[k].end <= Scan(s, 0)[l].start
    decreases l - k
  {
    var spans := Scan(s, 0);
    if k + 1 < l {
      MatchesInOrderWithoutOverlap(s, k, l - 1);
      assert spans[l - 1].start < spans[l - 1].end <= spans[l].start;
    }
  }

  // ---------------------------------------------------------------------------
  // The membership filter

  /** The invalid tokens keep the order in which they occur, duplicates included. */
  lemma {:induction false} InvalidOfAppend(xs: seq<string>, ys: seq<string>, placeholders: seq<Placeholder>)
    ensures InvalidOf(xs + ys, placeholders) == InvalidOf(xs, placeholders) + InvalidOf(ys, placeholders)
  {
    if xs != [] {
      var head := if Allowed(placeholders, xs[0]) then [] else [xs[0]];
      calc {
        InvalidOf(xs + ys, placeholders);
        { assert (xs + ys)[0] == xs[0] && (xs + ys)[1..] == xs[1..] + ys; }
        head + InvalidOf(xs[1..] + ys, placeholders);
        { InvalidOfAppend(xs[1..], ys, placeholders); }
        head + (InvalidOf(xs[1..], placeholders) + InvalidOf(ys, placeholders));
        (head + InvalidOf(xs[1..], placeholders)) + InvalidOf(ys, placeholders);
      }
    } else {
      assert xs + ys == ys;
    }
  }

  /** Each invalid token is reported as many times as it occurs; allowed tokens never are. */
  lemma {:induction false} InvalidOfCounts(used: seq<string>, placeholders: seq<Placeholder>, t: string)
    ensures multiset(InvalidOf(used, placeholders))[t] ==
      if Allowed(placeholders, t) then 0 else multiset(used)[t]
  {
    if used != [] {
      InvalidOfCounts(used[1..], placeholders, t);
      assert used == [used[0]] + used[1..];
    }
  }

  lemma AllowedIffValue(placeholders: seq<Placeholder>, t: string)
    ensures Allowed(placeholders, t) <==> t in Values(placeholders)
  {
  }

  /** Only the `value` of each allowed placeholder matters: two lists with the same
      values give the same outcome, whatever their other fields hold. */
  lemma OnlyValuesMatter(smsForm: string, ps: seq<Placeholder>, qs: seq<Placeholder>)
    requires Values(ps) == Values(qs)
    ensures ValidateSmsFormPlaceholders(smsForm, ps) == ValidateSmsFormPlaceholders(smsForm, qs)
  {
    InvalidOfSameValues(MatchAll(smsForm), ps, qs);
  }

  lemma {:induction false} InvalidOfSameValues(used: seq<string>, ps: seq<Placeholder>, qs: seq<Placeholder>)
    requires Values(ps) == Values(qs)
    ensures InvalidOf(used, ps) == InvalidOf(used, qs)
  {
    if used != [] {
      AllowedIffValue(ps, used[0]);
      AllowedIffValue(qs, used[0]);
      InvalidOfSameValues(used[1..], ps, qs);
    }
  }

  /** Allowing more values never turns a passing template into a failing one. */
  lemma MoreAllowedKeepsPass(smsForm: string, ps: seq<Placeholder>, qs: seq<Placeholder>)
    requires Values(ps) <= Values(qs)
    requires ValidateSmsFormPlaceholders(smsForm, ps).Pass?
    ensures ValidateSmsFormPlaceholders(smsForm, qs).Pass?
  {
    forall t | t in MatchAll(smsForm)
      ensures Allowed(qs, t)
    {
      AllowedIffValue(ps, t);
      AllowedIffValue(qs, t);
    }
  }

  /** Appending entries to the allowed list keeps a passing template passing. */
  lemma AppendingAllowedKeepsPass(smsForm: string, ps: seq<Placeholder>, extra: seq<Placeholder>)
    requires ValidateSmsFormPlaceholders(smsForm, ps).Pass?
    ensures ValidateSmsFormPlaceholders(smsForm, ps + extra).Pass?
  {
    assert Values(ps) <= Values(ps + extra);
    MoreAllowedKeepsPass(smsForm, ps, ps + extra);
  }

  /** A template without any `$$<non-$ characters>$$` passes against any list. */
  lemma TokenFreeAlwaysPasses(smsForm: string, placeholders: seq<Placeholder>)
    requires !ContainsToken(smsForm)
    ensures ValidateSmsFormPlaceholders(smsForm, placeholders) == Pass
  {
  }

  /** With nothing allowed, exactly the token-free templates pass. */
  lemma EmptyListPassesIffTokenFree(smsForm: string)
    ensures ValidateSmsFormPlaceholders(smsForm, []).Pass? <==> !ContainsToken(smsForm)
  {
    MatchAllEmptyIffTokenFree(smsForm);
    if MatchAll(smsForm) != [] {
      assert MatchAll(smsForm)[0] in MatchAll(smsForm);
    }
  }
}
