/** PII masking: two regular-expression substitutions over text, and their use on
    every string of a JSON tree. */
module Masking {
  import opened Jobs

  /** What the regular expressions and `str.lower` take from Unicode. */
  datatype Unicode = Unicode(digit: char -> bool, space: char -> bool, lower: string -> string)

  const PHONE_MASK := "***PHONE***"
  const REDACTED := "***REDACTED***"
  const EMAIL_MASK := "***@"

  /** `[\d\-\s]` */
  predicate PhoneChar(u: Unicode, c: char) {
    u.digit(c) || c == '-' || u.space(c)
  }

  /** No character of the masks, nor `+`, is a digit or a space. */
  ghost predicate Sane(u: Unicode) {
    && !u.digit('+') && !u.space('+')
    && (forall c :: c in PHONE_MASK + REDACTED ==> !u.digit(c) && !u.space(c))
  }

  // ---------- substitution ----------

  /** The text a scan leaves alone, one character at a time, and the text it matched. */
  datatype Segment = Kept(c: char) | Matched(text: string)

  /** Leftmost, non-overlapping matching: `end(i)` is where a match at `i` ends, or `i`. */
  function Scan(s: string, i: nat, end: nat -> nat): seq<Segment>
    decreases |s| - i
  {
    if i >= |s| then []
    else if i < end(i) <= |s| then [Matched(s[i..end(i)])] + Scan(s, end(i), end)
    else [Kept(s[i])] + Scan(s, i + 1, end)
  }

  function RenderOne(segment: Segment, replace: string -> string): string {
    match segment
    case Kept(c) => [c]
    case Matched(t) => replace(t)
  }

  function Render(segments: seq<Segment>, replace: string -> string): string {
    if segments == [] then "" else RenderOne(segments[0], replace) + Render(segments[1..], replace)
  }

  lemma RenderCons(first: Segment, rest: seq<Segment>, replace: string -> string)
    ensures Render([first] + rest, replace) == RenderOne(first, replace) + Render(rest, replace)
  {
    assert ([first] + rest)[1..] == rest;
  }

  /** What a substitution keeps stays in order: undoing the replacements in the scan
      gives back the input. */
  lemma {:induction false} ScanKeepsText(s: string, i: nat, end: nat -> nat)
    requires i <= |s|
    ensures Render(Scan(s, i, end), (t: string) => t) == s[i..]
    decreases |s| - i
  {
    if i < |s| {
      var same := (t: string) => t;
      var j := if i < end(i) <= |s| then end(i) else i + 1;
      var first := if i < end(i) <= |s| then Matched(s[i..j]) else Kept(s[i]);
      ScanKeepsText(s, j, end);
      RenderCons(first, Scan(s, j, end), same);
      assert RenderOne(first, same) == s[i..j];
      SplitsAt(s, i, j);
    }
  }

  lemma SplitsAt(s: string, i: nat, j: nat)
    requires i <= j <= |s|
    ensures s[i..] == s[i..j] + s[j..]
  {
  }

  // ---------- telephone numbers ----------

  /** `\d[\d\-\s]{7,}\d` matches the whole text. */
  ghost predicate PhoneBody(u: Unicode, t: string) {
    && |t| >= 9 && u.digit(t[0]) && u.digit(t[|t| - 1])
    && forall i :: 0 < i < |t| - 1 ==> u.digit(t[i]) || t[i] == '-' || u.space(t[i])
  }

  /** `\+?\d[\d\-\s]{7,}\d` matches the whole text. */
  ghost predicate IsPhone(u: Unicode, t: string) {
    PhoneBody(u, t) || (t != "" && t[0] == '+' && PhoneBody(u, t[1..]))
  }

  ghost predicate PhoneFree(u: Unicode, t: string) {
    forall i, j :: 0 <= i <= j <= |t| ==> !IsPhone(u, t[i..j])
  }

  /** The end of the longest run of telephone characters from `k`. */
  function RunEnd(u: Unicode, s: string, k: nat): (r: nat)
    requires k <= |s|
    ensures k <= r <= |s|
    ensures forall x :: k <= x < r ==> PhoneChar(u, s[x])
    ensures r < |s| ==> !PhoneChar(u, s[r])
    decreases |s| - k
  {
    if k < |s| && PhoneChar(u, s[k]) then RunEnd(u, s, k + 1) else k
  }

  /** Backtracking from the end of the run to its last digit, not before `lo`. */
  function LastDigit(u: Unicode, s: string, lo: nat, hi: nat): (r: Option<nat>)
    requires hi <= |s|
    ensures r.Some? ==> lo <= r.value < hi && u.digit(s[r.value])
    ensures forall x :: lo <= x < hi && u.digit(s[x]) ==> r.Some? && x <= r.value
  {
    if hi <= lo then None
    else if u.digit(s[hi - 1]) then Some(hi - 1)
    else LastDigit(u, s, lo, hi - 1)
  }

  /** Where the greedy match of the telephone pattern at `i` ends; `i` if none. */
  function PhoneEnd(u: Unicode, s: string, i: nat): nat {
    if i >= |s| then i
    else
      var j := if s[i] == '+' then i + 1 else i;
      if j < |s| && u.digit(s[j]) then
        var last := LastDigit(u, s, j + 8, RunEnd(u, s, j + 1));
        if last.Some? then last.value + 1 else i
      else i
  }

  /** The matcher finds a match at `i` exactly when some text from `i` is a number,
      and then it takes the longest. */
  lemma PhoneEndIsLongest(u: Unicode, s: string, i: nat)
    requires Sane(u) && i <= |s|
    ensures i <= PhoneEnd(u, s, i) <= |s|
    ensures PhoneEnd(u, s, i) > i ==> IsPhone(u, s[i..PhoneEnd(u, s, i)])
    ensures forall e :: i <= e <= |s| && IsPhone(u, s[i..e]) ==> i < e <= PhoneEnd(u, s, i)
  {
    forall e | i <= e <= |s| && IsPhone(u, s[i..e]) ensures i < e <= PhoneEnd(u, s, i) {
      PhoneStops(u, s, i, e);
    }
    var end := PhoneEnd(u, s, i);
    if end > i {
      var j := if s[i] == '+' then i + 1 else i;
      assert PhoneBody(u, s[j..end]);
      if j > i { assert s[i..end][1..] == s[j..end]; }
    }
  }

  /** A body from `j` to `e`, at positions of the text. */
  lemma BodyInPlace(u: Unicode, s: string, j: nat, e: nat)
    requires j <= e <= |s| && PhoneBody(u, s[j..e])
    ensures j + 9 <= e && u.digit(s[j]) && u.digit(s[e - 1])
    ensures forall x :: j < x < e ==> PhoneChar(u, s[x])
  {
    var t := s[j..e];
    assert s[j] == t[0] && s[e - 1] == t[|t| - 1];
    forall x | j < x < e ensures PhoneChar(u, s[x]) { assert s[x] == t[x - j]; }
  }

  lemma BodyStops(u: Unicode, s: string, j: nat, e: nat)
    requires j <= e <= |s| && PhoneBody(u, s[j..e])
    ensures j < e <= RunEnd(u, s, j + 1) && LastDigit(u, s, j + 8, RunEnd(u, s, j + 1)).Some?
    ensures e - 1 <= LastDigit(u, s, j + 8, RunEnd(u, s, j + 1)).value
  {
    BodyInPlace(u, s, j, e);
    assert RunEnd(u, s, j + 1) >= e;
  }

  /** A number from `i` to `e` ends no later than the matcher's choice. */
  lemma PhoneStops(u: Unicode, s: string, i: nat, e: nat)
    requires Sane(u) && i <= e <= |s| && IsPhone(u, s[i..e])
    ensures i < e <= PhoneEnd(u, s, i)
  {
    var t := s[i..e];
    var j := if s[i] == '+' then i + 1 else i;
    assert PhoneBody(u, s[j..e]) by {
      if j > i { assert t[1..] == s[j..e]; assert !PhoneBody(u, t); }
    }
    BodyInPlace(u, s, j, e);
    BodyStops(u, s, j, e);
  }

  function PhoneEnds(u: Unicode, s: string): nat -> nat {
    (i: nat) => PhoneEnd(u, s, i)
  }

  function PhoneMask(t: string): string {
    PHONE_MASK
  }

  /** `_PHONE_RE.sub("***PHONE***", s)` */
  function MaskPhones(u: Unicode, s: string): string {
    Render(Scan(s, 0, PhoneEnds(u, s)), PhoneMask)
  }

  /** The output from input position `i` on. */
  function Tail(u: Unicode, s: string, i: nat): string {
    Render(Scan(s, i, PhoneEnds(u, s)), PhoneMask)
  }

  lemma TailUnfold(u: Unicode, s: string, i: nat)
    requires Sane(u) && i < |s|
    ensures var e := PhoneEnd(u, s, i);
      if e > i then e <= |s| && Tail(u, s, i) == "***PHONE***" + Tail(u, s, e)
      else Tail(u, s, i) == [s[i]] + Tail(u, s, i + 1)
  {
    PhoneEndIsLongest(u, s, i);
    var e := PhoneEnd(u, s, i);
    var j := if e > i then e else i + 1;
    assert Scan(s, i, PhoneEnds(u, s))[1..] == Scan(s, j, PhoneEnds(u, s));
  }

  predicate NumberChar(u: Unicode, c: char) {
    PhoneChar(u, c) || c == '+'
  }

  ghost predicate NumberText(u: Unicode, t: string) {
    forall k :: 0 <= k < |t| ==> NumberChar(u, t[k])
  }

  lemma PhoneIsNumberText(u: Unicode, t: string)
    requires IsPhone(u, t)
    ensures |t| >= 9 && NumberText(u, t) && NumberChar(u, t[0])
  {
    forall k | 0 <= k < |t| ensures NumberChar(u, t[k]) {
      if !PhoneBody(u, t) && k > 0 { assert t[k] == t[1..][k - 1]; }
    }
  }

  lemma MaskIsNoNumber(u: Unicode, k: nat)
    requires Sane(u) && k < |PHONE_MASK|
    ensures !NumberChar(u, PHONE_MASK[k])
  {
    assert PHONE_MASK[k] in PHONE_MASK + REDACTED;
  }

  /** Output text that could belong to a number was copied from the input. */
  lemma {:induction false} NumberTextIsCopied(u: Unicode, s: string, i: nat, t: string)
    requires Sane(u) && i <= |s| && t <= Tail(u, s, i) && NumberText(u, t)
    ensures t <= s[i..]
    decreases |s| - i
  {
    if t != "" && i < |s| {
      TailUnfold(u, s, i);
      assert NumberChar(u, t[0]) && t[0] == Tail(u, s, i)[0];
      MaskIsNoNumber(u, 0);
      var rest := t[1..];
      assert Tail(u, s, i)[1..] == Tail(u, s, i + 1);
      forall k | 0 <= k < |rest| ensures NumberChar(u, rest[k]) { assert rest[k] == t[k + 1]; }
      NumberTextIsCopied(u, s, i + 1, rest);
      assert s[i..] == [s[i]] + s[i + 1..] && t == [t[0]] + rest;
    }
  }

  lemma CopiedNumberMatches(u: Unicode, s: string, i: nat, t: string)
    requires Sane(u) && i <= |s| && t <= s[i..] && IsPhone(u, t)
    ensures PhoneEnd(u, s, i) > i
  {
    PhoneEndIsLongest(u, s, i);
    assert t == s[i..i + |t|];
  }

  /** No number starts where the input position `i` is written. */
  lemma NoNumberStarts(u: Unicode, s: string, i: nat, a: nat, t: string)
    requires Sane(u) && i < |s| && a <= |Tail(u, s, i)| && t <= Tail(u, s, i)[a..]
    requires a < if PhoneEnd(u, s, i) > i then |PHONE_MASK| else 1
    ensures !IsPhone(u, t)
  {
    if IsPhone(u, t) {
      PhoneIsNumberText(u, t);
      TailUnfold(u, s, i);
      assert NumberChar(u, t[0]) && t[0] == Tail(u, s, i)[a];
      if PhoneEnd(u, s, i) > i {
        MaskIsNoNumber(u, a);
      } else {
        NumberTextIsCopied(u, s, i, t);
        CopiedNumberMatches(u, s, i, t);
      }
      assert false;
    }
  }

  lemma {:induction false} NoNumberInTail(u: Unicode, s: string, i: nat, a: nat, t: string)
    requires Sane(u) && i <= |s| && a <= |Tail(u, s, i)| && t <= Tail(u, s, i)[a..]
    ensures !IsPhone(u, t)
    decreases |s| - i
  {
    if i < |s| {
      TailUnfold(u, s, i);
      var e := PhoneEnd(u, s, i);
      var mask := if e > i then |PHONE_MASK| else 1;
      var next := if e > i then e else i + 1;
      if a >= mask {
        assert Tail(u, s, i)[a..] == Tail(u, s, next)[a - mask..];
        NoNumberInTail(u, s, next, a - mask, t);
      } else {
        NoNumberStarts(u, s, i, a, t);
      }
    }
  }

  /** For every input, no part of the output of the telephone pass is a number. */
  lemma PhonesAreGone(u: Unicode, s: string)
    requires Sane(u)
    ensures PhoneFree(u, MaskPhones(u, s))
  {
    forall i, j | 0 <= i <= j <= |MaskPhones(u, s)| ensures !IsPhone(u, MaskPhones(u, s)[i..j]) {
      NoNumberInTail(u, s, 0, i, MaskPhones(u, s)[i..j]);
    }
  }

  lemma {:induction false} FreeTailIsCopied(u: Unicode, s: string, i: nat)
    requires Sane(u) && PhoneFree(u, s) && i <= |s|
    ensures Tail(u, s, i) == s[i..]
    decreases |s| - i
  {
    if i < |s| {
      TailUnfold(u, s, i);
      PhoneEndIsLongest(u, s, i);
      FreeTailIsCopied(u, s, i + 1);
    }
  }

  /** The telephone pass changes nothing exactly when there is no number to mask; so a
      second pass never changes anything. */
  lemma PhonePassFixedIff(u: Unicode, s: string)
    requires Sane(u)
    ensures MaskPhones(u, s) == s <==> PhoneFree(u, s)
    ensures MaskPhones(u, MaskPhones(u, s)) == MaskPhones(u, s)
    ensures MaskPhones(u, s) == Tail(u, s, 0)
  {
    PhonesAreGone(u, s);
    FreeTailIsCopied(u, MaskPhones(u, s), 0);
    if PhoneFree(u, s) { FreeTailIsCopied(u, s, 0); }
  }

  // ---------- e-mail addresses ----------

  predicate Letter(c: char) {
    'a' <= c <= 'z' || 'A' <= c <= 'Z'
  }

  predicate Alphanumeric(c: char) {
    Letter(c) || '0' <= c <= '9'
  }

  /** `[A-Za-z0-9._%+-]` and `[A-Za-z0-9.-]` */
  predicate LocalChar(c: char) {
    Alphanumeric(c) || c in "._%+-"
  }

  predicate DomainChar(c: char) {
    Alphanumeric(c) || c in ".-"
  }

  /** The end of the longest run of characters of a class from `k`. */
  function ClassEnd(s: string, k: nat, member: char -> bool): (r: nat)
    requires k <= |s|
    ensures k <= r <= |s| && forall x :: k <= x < r ==> member(s[x])
    ensures r < |s| ==> !member(s[r])
    decreases |s| - k
  {
    if k < |s| && member(s[k]) then ClassEnd(s, k + 1, member) else k
  }

  /** Backtracking to the last dot before `hi`, not before `lo`, that two letters follow. */
  function LastDot(s: string, lo: nat, hi: nat): (r: Option<nat>)
    requires hi <= |s|
    ensures r.Some? ==> lo <= r.value && r.value + 2 < hi && s[r.value] == '.'
  {
    if hi < lo + 3 then None
    else if s[hi - 3] == '.' && Letter(s[hi - 2]) && Letter(s[hi - 1]) then Some(hi - 3)
    else LastDot(s, lo, hi - 1)
  }

  /** Where the greedy match of the address pattern at `i` ends; `i` if none. */
  function EmailEnd(s: string, i: nat): nat {
    if i >= |s| then i
    else
      var at := ClassEnd(s, i, LocalChar);
      if at == i || at >= |s| || s[at] != '@' then i
      else
        var domain := ClassEnd(s, at + 1, DomainChar);
        var dot := LastDot(s, at + 2, domain);
        if dot.Some? then ClassEnd(s, dot.value + 1, Letter) else i
  }

  function EmailEnds(s: string): nat -> nat {
    (i: nat) => EmailEnd(s, i)
  }

  /** The text after the first `@`. */
  function Domain(t: string): string {
    if t == "" then "" else if t[0] == '@' then t[1..] else Domain(t[1..])
  }

  /** `"***@\2"`: the local part is masked, the domain kept. */
  function EmailMask(t: string): string {
    EMAIL_MASK + Domain(t)
  }

  /** `_EMAIL_RE.sub("***@\2", s)` */
  function MaskEmails(s: string): string {
    Render(Scan(s, 0, EmailEnds(s)), EmailMask)
  }

  /** `[A-Za-z0-9._%+-]+@[A-Za-z0-9.-]+\.[A-Za-z]{2,}` matches the whole text, its `@` and
      its last dot being at `at` and `dot`. */
  ghost predicate AddressAt(t: string, at: nat, dot: nat) {
    && 0 < at && at + 1 < dot && dot + 2 < |t| && t[at] == '@' && t[dot] == '.'
    && (forall k :: 0 <= k < at ==>
          'a' <= t[k] <= 'z' || 'A' <= t[k] <= 'Z' || '0' <= t[k] <= '9' || t[k] in {'.', '_', '%', '+', '-'})
    && (forall k :: at < k < dot ==>
          'a' <= t[k] <= 'z' || 'A' <= t[k] <= 'Z' || '0' <= t[k] <= '9' || t[k] in {'.', '-'})
    && (forall k :: dot < k < |t| ==> 'a' <= t[k] <= 'z' || 'A' <= t[k] <= 'Z')
  }

  ghost predicate IsAddress(t: string) {
    exists at: nat, dot: nat :: AddressAt(t, at, dot)
  }

  /** Every dot in range with two letters after it is no later than the one found. */
  lemma {:induction false} LastDotIsLast(s: string, lo: nat, hi: nat, dot: nat)
    requires hi <= |s| && lo <= dot && dot + 2 < hi && s[dot] == '.' && Letter(s[dot + 1]) && Letter(s[dot + 2])
    ensures LastDot(s, lo, hi).Some? && dot <= LastDot(s, lo, hi).value
  {
    if !(s[hi - 3] == '.' && Letter(s[hi - 2]) && Letter(s[hi - 1])) { LastDotIsLast(s, lo, hi - 1, dot); }
  }

  lemma {:induction false} LastDotLetters(s: string, lo: nat, hi: nat)
    requires hi <= |s| && LastDot(s, lo, hi).Some?
    ensures var dot := LastDot(s, lo, hi).value; Letter(s[dot + 1]) && Letter(s[dot + 2])
  {
    if !(s[hi - 3] == '.' && Letter(s[hi - 2]) && Letter(s[hi - 1])) { LastDotLetters(s, lo, hi - 1); }
  }

  /** The parts of what the matcher finds. */
  lemma FoundInPlace(s: string, i: nat) returns (p: nat, q: nat)
    requires i <= |s| && EmailEnd(s, i) != i
    ensures InPlace(s, i, EmailEnd(s, i), p, q)
  {
    p := ClassEnd(s, i, LocalChar);
    var domain := ClassEnd(s, p + 1, DomainChar);
    q := LastDot(s, p + 2, domain).value;
    LastDotLetters(s, p + 2, domain);
    ClassEndCovers(s, q + 1, Letter, q + 3);
  }

  lemma PlacedIsAddress(s: string, i: nat, e: nat, p: nat, q: nat)
    requires InPlace(s, i, e, p, q)
    ensures AddressAt(s[i..e], p - i, q - i)
  {
  }

  /** What the matcher finds is an address. */
  lemma EmailEndFinds(s: string, i: nat)
    requires i <= |s| && EmailEnd(s, i) != i
    ensures i < EmailEnd(s, i) <= |s| && IsAddress(s[i..EmailEnd(s, i)])
  {
    var p, q := FoundInPlace(s, i);
    PlacedIsAddress(s, i, EmailEnd(s, i), p, q);
  }

  lemma {:induction false} ClassEndCovers(s: string, k: nat, member: char -> bool, x: nat)
    requires k <= x <= |s| && forall j :: k <= j < x ==> member(s[j])
    ensures ClassEnd(s, k, member) >= x
    decreases |s| - k
  {
    if k < x { ClassEndCovers(s, k + 1, member, x); }
  }

  /** An address from `i` to `e`, its `@` and its last dot at `p` and `q` of the text. */
  ghost predicate InPlace(s: string, i: nat, e: nat, p: nat, q: nat) {
    && i < p && p + 1 < q && q + 2 < e <= |s| && s[p] == '@' && s[q] == '.'
    && (forall k :: i <= k < p ==> LocalChar(s[k]))
    && (forall k :: p < k < e ==> DomainChar(s[k]))
    && (forall k :: q < k < e ==> Letter(s[k]))
  }

  lemma AddressInPlace(s: string, i: nat, e: nat, at: nat, dot: nat)
    requires i <= e <= |s| && AddressAt(s[i..e], at, dot)
    ensures InPlace(s, i, e, i + at, i + dot)
  {
    var t := s[i..e];
    assert s[i + at] == t[at] && s[i + dot] == t[dot];
    forall k | i <= k < i + at ensures LocalChar(s[k]) { assert s[k] == t[k - i]; }
    forall k | i + at < k < e ensures DomainChar(s[k]) { assert s[k] == t[k - i]; }
    forall k | i + dot < k < e ensures Letter(s[k]) { assert s[k] == t[k - i]; }
  }

  /** No address from `i` ends later than the matcher's choice. */
  lemma AddressStops(s: string, i: nat, e: nat, p: nat, q: nat)
    requires InPlace(s, i, e, p, q)
    ensures i < e <= EmailEnd(s, i)
  {
    ClassEndCovers(s, i, LocalChar, p);
    assert ClassEnd(s, i, LocalChar) == p by { assert !LocalChar(s[p]); }
    ClassEndCovers(s, p + 1, DomainChar, e);
    LastDotReaches(s, p + 2, ClassEnd(s, p + 1, DomainChar), q, e);
  }

  /** The letters after the last dot reach at least as far as those after another one. */
  lemma LastDotReaches(s: string, lo: nat, hi: nat, dot: nat, e: nat)
    requires e <= hi <= |s| && lo <= dot && dot + 2 < e && s[dot] == '.'
    requires forall k :: dot < k < e ==> Letter(s[k])
    ensures LastDot(s, lo, hi).Some? && e <= ClassEnd(s, LastDot(s, lo, hi).value + 1, Letter)
  {
    LastDotIsLast(s, lo, hi, dot);
    var last := LastDot(s, lo, hi).value;
    assert forall k :: dot < k < e ==> s[k] != '.';
    if last == dot { ClassEndCovers(s, last + 1, Letter, e); }
  }

  /** The matcher finds a match at `i` exactly when some text from `i` is an address, and
      then it takes the longest. */
  lemma EmailEndIsLongest(s: string, i: nat)
    requires i <= |s|
    ensures i <= EmailEnd(s, i) <= |s|
    ensures EmailEnd(s, i) > i ==> IsAddress(s[i..EmailEnd(s, i)])
    ensures forall e :: i <= e <= |s| && IsAddress(s[i..e]) ==> i < e <= EmailEnd(s, i)
  {
    if EmailEnd(s, i) != i { EmailEndFinds(s, i); }
    forall e | i <= e <= |s| && IsAddress(s[i..e]) ensures i < e <= EmailEnd(s, i) {
      var at: nat, dot: nat :| AddressAt(s[i..e], at, dot);
      AddressInPlace(s, i, e, at, dot);
      AddressStops(s, i, e, i + at, i + dot);
    }
  }

  lemma {:induction false} DomainAfter(t: string, at: nat)
    requires at < |t| && t[at] == '@' && forall k :: 0 <= k < at ==> t[k] != '@'
    ensures Domain(t) == t[at + 1..]
  {
    if at > 0 {
      DomainAfter(t[1..], at - 1);
      assert t[1..][at..] == t[at + 1..];
    }
  }

  /** The local part of an address is replaced, its domain kept. */
  lemma AddressMasked(t: string, at: nat, dot: nat)
    requires AddressAt(t, at, dot)
    ensures EmailMask(t) == "***@" + t[at + 1..]
  {
    DomainAfter(t, at);
  }

  /** The output of the address pass from input position `i` on. */
  function EmailTail(s: string, i: nat): string {
    Render(Scan(s, i, EmailEnds(s)), EmailMask)
  }

  /** The longest address from `i` ends at `e`. */
  ghost predicate LongestAddress(s: string, i: nat, e: nat, at: nat, dot: nat) {
    i <= e <= |s| && AddressAt(s[i..e], at, dot) && forall x :: e < x <= |s| ==> !IsAddress(s[i..x])
  }

  lemma EmailTailStep(s: string, i: nat)
    requires i < |s|
    ensures var e := EmailEnd(s, i);
      if i < e <= |s| then EmailTail(s, i) == EmailMask(s[i..e]) + EmailTail(s, e)
      else EmailTail(s, i) == [s[i]] + EmailTail(s, i + 1)
  {
    var e := EmailEnd(s, i);
    var j := if i < e <= |s| then e else i + 1;
    var first := if i < e <= |s| then Matched(s[i..e]) else Kept(s[i]);
    assert Scan(s, i, EmailEnds(s)) == [first] + Scan(s, j, EmailEnds(s));
    RenderCons(first, Scan(s, j, EmailEnds(s)), EmailMask);
  }

  /** From left to right: where an address starts, the longest one is written with its
      local part masked and the pass goes on after it; any other character is copied. */
  lemma EmailTailUnfolds(s: string, i: nat, e: nat, at: nat, dot: nat)
    requires i < |s|
    ensures EmailTail(s, 0) == MaskEmails(s)
    ensures (forall x :: i <= x <= |s| ==> !IsAddress(s[i..x])) ==> EmailTail(s, i) == [s[i]] + EmailTail(s, i + 1)
    ensures LongestAddress(s, i, e, at, dot) ==> EmailTail(s, i) == ("***@" + s[i + at + 1..e]) + EmailTail(s, e)
  {
    EmailEndIsLongest(s, i);
    EmailTailStep(s, i);
    if LongestAddress(s, i, e, at, dot) {
      assert IsAddress(s[i..e]) && e == EmailEnd(s, i);
      AddressMasked(s[i..e], at, dot);
      assert s[i..e][at + 1..] == s[i + at + 1..e];
    }
  }

  function MaskText(u: Unicode, s: string): string {
    MaskPhones(u, MaskEmails(s))
  }

  /** `mask_text` leaves no number, and both passes keep the text around their matches
      in its place. */
  lemma MaskTextIsPhoneFree(u: Unicode, s: string)
    requires Sane(u)
    ensures PhoneFree(u, MaskText(u, s))
    ensures Render(Scan(s, 0, EmailEnds(s)), (t: string) => t) == s
    ensures var masked := MaskEmails(s);
      Render(Scan(masked, 0, PhoneEnds(u, masked)), (t: string) => t) == masked
  {
    PhonesAreGone(u, MaskEmails(s));
    ScanKeepsText(s, 0, EmailEnds(s));
    ScanKeepsText(MaskEmails(s), 0, PhoneEnds(u, MaskEmails(s)));
    assert s[0..] == s && MaskEmails(s)[0..] == MaskEmails(s);
  }

  ghost predicate NoAddress(s: string) {
    forall i, e :: 0 <= i <= e <= |s| ==> !IsAddress(s[i..e])
  }

  lemma NoAddressStep(s: string, i: nat)
    requires i < |s| && NoAddress(s)
    ensures EmailTail(s, i) == [s[i]] + EmailTail(s, i + 1)
  {
    EmailTailUnfolds(s, i, i, 0, 0);
  }

  lemma {:induction false} NoAddressTail(s: string, i: nat)
    requires i <= |s| && NoAddress(s)
    ensures EmailTail(s, i) == s[i..]
    decreases |s| - i
  {
    if i < |s| {
      NoAddressStep(s, i);
      NoAddressTail(s, i + 1);
      assert s[i..] == [s[i]] + s[i + 1..];
    }
  }

  lemma AddressAlone(s: string, at: nat, dot: nat)
    requires AddressAt(s, at, dot)
    ensures MaskEmails(s) == "***@" + s[at + 1..]
  {
    assert s[0..|s|] == s;
    EmailTailUnfolds(s, 0, |s|, at, dot);
    assert EmailTail(s, |s|) == "";
  }

  /** Text without addresses is masked as the telephone pass masks it. An address alone
      loses its local part, and keeps its domain as far as that holds no number. Whatever
      the first pass leaves stays exactly when it is free of numbers. */
  lemma MaskTextPasses(u: Unicode, s: string)
    requires Sane(u)
    ensures NoAddress(s) ==> MaskEmails(s) == s && MaskText(u, s) == MaskPhones(u, s)
    ensures forall at: nat, dot: nat :: AddressAt(s, at, dot) && PhoneFree(u, "***@" + s[at + 1..]) ==>
      MaskText(u, s) == "***@" + s[at + 1..]
    ensures MaskText(u, s) == MaskEmails(s) <==> PhoneFree(u, MaskEmails(s))
  {
    PhonePassFixedIff(u, MaskEmails(s));
    if NoAddress(s) { NoAddressTail(s, 0); }
    forall at: nat, dot: nat | AddressAt(s, at, dot) ensures MaskEmails(s) == "***@" + s[at + 1..] {
      AddressAlone(s, at, dot);
    }
  }

  // ---------- JSON trees ----------

  /** A JSON value; `Scalar` stands for numbers, booleans and null. The keys of an
      object are distinct and kept in insertion order. */
  datatype Json =
    | Text(text: string)
    | Scalar(code: int)
    | Items(items: seq<Json>)
    | Object(fields: seq<Field>)

  datatype Field = Field(key: string, value: Json)

  predicate Sensitive(u: Unicode, key: string) {
    u.lower(key) in {"authorization", "api_key", "token", "secret", "password"}
  }

  function MaskPii(u: Unicode, v: Json): Json {
    match v
    case Text(t) => Text(MaskText(u, t))
    case Scalar(_) => v
    case Items(items) => Items(seq(|items|, i requires 0 <= i < |items| => MaskPii(u, items[i])))
    case Object(fields) => Object(seq(|fields|, i requires 0 <= i < |fields| => MaskField(u, fields[i])))
  }

  function MaskField(u: Unicode, f: Field): Field {
    Field(f.key, if Sensitive(u, f.key) then Text(REDACTED) else MaskPii(u, f.value))
  }

  /** The recursive function as it is written: by kind of value. */
  method MaskPiiValue(u: Unicode, v: Json) returns (masked: Json)
    ensures masked == MaskPii(u, v)
    decreases v, 1
  {
    match v
    case Text(t) => masked := Text(MaskText(u, t));
    case Scalar(_) => masked := v;
    case Items(_) => masked := MaskItems(u, v);
    case Object(_) => masked := MaskObject(u, v);
  }

  /** The comprehension over a list. */
  method MaskItems(u: Unicode, v: Json) returns (masked: Json)
    requires v.Items?
    ensures masked == MaskPii(u, v)
    decreases v, 0
  {
    var out := [];
    ghost var expected := MaskPii(u, v).items;
    for i := 0 to |v.items|
      invariant |expected| == |v.items| && out == expected[..i]
    {
      assert expected[i] == MaskPii(u, v.items[i]);
      var item := MaskPiiValue(u, v.items[i]);
      out := out + [item];
      assert out == expected[..i + 1];
    }
    assert out == expected;
    return Items(out);
  }

  /** The loop that fills a new object. */
  method MaskObject(u: Unicode, v: Json) returns (masked: Json)
    requires v.Object?
    ensures masked == MaskPii(u, v)
    decreases v, 0
  {
    var out := [];
    ghost var expected := MaskPii(u, v).fields;
    for i := 0 to |v.fields|
      invariant |expected| == |v.fields| && out == expected[..i]
    {
      assert expected[i] == MaskField(u, v.fields[i]);
      var value := Text(REDACTED);
      if !Sensitive(u, v.fields[i].key) {
        value := MaskPiiValue(u, v.fields[i].value);
      }
      out := out + [Field(v.fields[i].key, value)];
      assert out == expected[..i + 1];
    }
    assert out == expected;
    return Object(out);
  }

  /** The value at a path of positions, through lists and objects. */
  function Lookup(v: Json, path: seq<nat>): Option<Json>
    decreases path
  {
    if path == [] then Some(v)
    else match v
      case Items(items) => if path[0] < |items| then Lookup(items[path[0]], path[1..]) else None
      case Object(fields) => if path[0] < |fields| then Lookup(fields[path[0]].value, path[1..]) else None
      case _ => None
  }

  /** No key on the way is sensitive. */
  predicate Open(u: Unicode, v: Json, path: seq<nat>)
    decreases path
  {
    if path == [] then true
    else match v
      case Items(items) => path[0] < |items| ==> Open(u, items[path[0]], path[1..])
      case Object(fields) =>
        path[0] < |fields| ==>
          && u.lower(fields[path[0]].key) !in {"authorization", "api_key", "token", "secret", "password"}
          && Open(u, fields[path[0]].value, path[1..])
      case _ => true
  }

  /** On every path without a sensitive key the masked tree has the masked value, and a
      value only where the original has one. */
  lemma {:induction false} MaskAlongOpenPath(u: Unicode, v: Json, path: seq<nat>)
    requires Open(u, v, path)
    ensures Lookup(MaskPii(u, v), path) ==
      match Lookup(v, path) case None => None case Some(x) => Some(MaskPii(u, x))
    decreases path
  {
    if path != [] {
      match v
      case Items(items) => if path[0] < |items| { MaskAlongOpenPath(u, items[path[0]], path[1..]); }
      case Object(fields) => if path[0] < |fields| { MaskAlongOpenPath(u, fields[path[0]].value, path[1..]); }
      case _ =>
    }
  }

  /** At any depth: keys and their order, list lengths and scalars stay; the value under
      a sensitive key, whatever it is, becomes the redaction text; every other string
      becomes its masked text. */
  lemma MaskKeepsShape(u: Unicode, v: Json, path: seq<nat>)
    requires Open(u, v, path) && Lookup(v, path).Some?
    ensures Lookup(MaskPii(u, v), path).Some?
    ensures var x, y := Lookup(v, path).value, Lookup(MaskPii(u, v), path).value;
      match x
      case Text(t) => y == Text(MaskText(u, t))
      case Scalar(_) => y == x
      case Items(items) => y.Items? && |y.items| == |items|
      case Object(fields) =>
        && y.Object? && |y.fields| == |fields|
        && forall i :: 0 <= i < |fields| ==>
             && y.fields[i].key == fields[i].key
             && (u.lower(fields[i].key) in {"authorization", "api_key", "token", "secret", "password"} ==>
                   y.fields[i].value == Text("***REDACTED***"))
  {
    MaskAlongOpenPath(u, v, path);
  }

  /** Every string value of the tree is free of numbers. */
  ghost predicate TreePhoneFree(u: Unicode, v: Json) {
    match v
    case Text(t) => PhoneFree(u, t)
    case Scalar(_) => true
    case Items(items) => forall i :: 0 <= i < |items| ==> TreePhoneFree(u, items[i])
    case Object(fields) => forall i :: 0 <= i < |fields| ==> TreePhoneFree(u, fields[i].value)
  }

  lemma RedactionIsPhoneFree(u: Unicode)
    requires Sane(u)
    ensures PhoneFree(u, REDACTED)
  {
    forall i, j | 0 <= i <= j <= |REDACTED| ensures !IsPhone(u, REDACTED[i..j]) {
      if i < j { assert REDACTED[i..j][0] == REDACTED[i] && REDACTED[i] in PHONE_MASK + REDACTED; }
      if IsPhone(u, REDACTED[i..j]) {
        PhoneIsNumberText(u, REDACTED[i..j]);
        assert false;
      }
    }
  }

  lemma {:induction false} MaskedTreeIsPhoneFree(u: Unicode, v: Json)
    requires Sane(u)
    ensures TreePhoneFree(u, MaskPii(u, v))
  {
    match v
    case Text(t) => MaskTextIsPhoneFree(u, t);
    case Scalar(_) =>
    case Items(items) =>
      forall i | 0 <= i < |items| ensures TreePhoneFree(u, MaskPii(u, items[i])) {
        MaskedTreeIsPhoneFree(u, items[i]);
      }
    case Object(fields) =>
      RedactionIsPhoneFree(u);
      forall i | 0 <= i < |fields| ensures TreePhoneFree(u, MaskField(u, fields[i]).value) {
        MaskedTreeIsPhoneFree(u, fields[i].value);
      }
  }
}
