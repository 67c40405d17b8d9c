/** The promo-code validator of src/app/api/promo/validate/route.ts: the code
    is looked up as typed (trimmed), then upper-cased, then lower-cased; the
    row found must be active, unexpired and under its usage limit, and a
    successful validation consumes one use. The `promo_codes` table is a map
    from id to row; times are milliseconds. */
module Promo {
  import opened Common
  import opened JsText

  /** A `promo_codes` row; a null column is `None`. */
  datatype PromoRow = PromoRow(
    active: Option<bool>, expiresAt: Option<int>, maxUses: Option<int>, usedCount: Option<int>,
    lastUsedAt: Option<int>, discount: Option<int>, kind: Option<string>, coins: Option<int>,
    plan: Option<string>, unlockAll: Option<bool>)

  /** The `data` of a successful answer. */
  datatype PromoGrant = PromoGrant(code: string, discount: int, kind: string, coins: int, plan: string, unlockAll: bool)

  /** The answer and the table after the call. */
  datatype PromoResult = PromoResult(outcome: Outcome<PromoGrant>, table: map<string, PromoRow>)

  /** The three spellings tried, in order. */
  function Spellings(trimmed: string): (r: seq<string>)
    ensures |r| == 3 && r[0] == trimmed
  {
    [trimmed, Upper(trimmed), Lower(trimmed)]
  }

  /** The first spelling with a row, if any: the loop that breaks on the
      first hit. */
  function FirstHit(table: map<string, PromoRow>, spellings: seq<string>): (r: Option<string>)
    ensures r.Some? ==> r.value in table && r.value in spellings
    ensures r.None? <==> forall i :: 0 <= i < |spellings| ==> spellings[i] !in table
    ensures r.Some? ==> exists i :: 0 <= i < |spellings| && spellings[i] == r.value
                         && forall j :: 0 <= j < i ==> spellings[j] !in table
  {
    if spellings == [] then None
    else if spellings[0] in table then Some(spellings[0])
    else
      var r := FirstHit(table, spellings[1..]);
      if r.Some? then
        var i :| 0 <= i < |spellings| - 1 && spellings[1..][i] == r.value
                 && forall j :: 0 <= j < i ==> spellings[1..][j] !in table;
        assert spellings[i + 1] == r.value;
        r
      else r
  }

  /** `!promoData.active`. */
  predicate Inactive(row: PromoRow) {
    row.active != Some(true)
  }

  /** `expires_at && new Date(expires_at) < new Date()`. */
  predicate Expired(row: PromoRow, now: int) {
    row.expiresAt.Some? && row.expiresAt.value < now
  }

  /** `max_uses && used_count >= max_uses`, a null count comparing as 0. */
  predicate AtLimit(row: PromoRow) {
    TruthyNum(row.maxUses) && NumOrZero(row.usedCount) >= row.maxUses.value
  }

  /** The answer's fields with their defaults. */
  function GrantOf(code: string, row: PromoRow): (g: PromoGrant)
    ensures g.code == code
    ensures g.discount == (if TruthyNum(row.discount) then row.discount.value else 100)
    ensures g.kind == (if Truthy(row.kind) then row.kind.value else "percent")
    ensures g.coins == (if TruthyNum(row.coins) then row.coins.value else 100)
    ensures g.plan == (if Truthy(row.plan) then row.plan.value else "yearly")
    ensures g.unlockAll <==> row.unlockAll != Some(false)
  {
    PromoGrant(code,
      if TruthyNum(row.discount) then row.discount.value else 100,
      OrEmpty(Or(row.kind, Some("percent"))),
      if TruthyNum(row.coins) then row.coins.value else 100,
      OrEmpty(Or(row.plan, Some("yearly"))),
      row.unlockAll != Some(false))
  }

  /** The table after one use of the code stored under `id`: its count goes
      up by one (a null count being 0) and it is stamped with the time; no
      other row changes. */
  predicate UsedOnce(before: map<string, PromoRow>, after: map<string, PromoRow>, id: string, now: int)
    requires id in before
  {
    && after.Keys == before.Keys
    && after[id].usedCount == Some(NumOrZero(before[id].usedCount) + 1)
    && after[id].lastUsedAt == Some(now)
    && (forall k :: k in before && k != id ==> after[k] == before[k])
  }

  /** The checks on the row found under `id`, and the use it consumes. */
  function Redeem(table: map<string, PromoRow>, id: string, now: int): (r: PromoResult)
    requires id in table
    ensures r.outcome.Err? ==> r.table == table
    ensures r.outcome.Ok? <==> !Inactive(table[id]) && !Expired(table[id], now) && !AtLimit(table[id])
    ensures r.outcome != Err(404, "Invalid promo code")
    ensures r.outcome.Ok? ==> r.outcome.body == GrantOf(id, table[id]) && UsedOnce(table, r.table, id, now)
  {
    var row := table[id];
    if Inactive(row) then PromoResult(Err(400, "This promo code is no longer active"), table)
    else if Expired(row, now) then PromoResult(Err(400, "This promo code has expired"), table)
    else if AtLimit(row) then PromoResult(Err(400, "This promo code has reached its usage limit"), table)
    else
      PromoResult(Ok(GrantOf(id, row)),
        table[id := row.(usedCount := Some(NumOrZero(row.usedCount) + 1), lastUsedAt := Some(now))])
  }

  /** The id the handler settles on for a typed code, if any. */
  function Found(table: map<string, PromoRow>, code: string): (r: Option<string>)
    ensures r.Some? ==> r.value in table
  {
    FirstHit(table, Spellings(Trim(code)))
  }

  /** The POST handler. */
  function Validate(table: map<string, PromoRow>, code: Option<string>, now: int): (r: PromoResult)
    ensures !Truthy(code) ==> r == PromoResult(Err(400, "Promo code is required"), table)
    ensures r.outcome.Err? ==> r.table == table
    ensures Truthy(code) ==>
              (r.outcome == Err(404, "Invalid promo code") <==> Found(table, code.value).None?)
    ensures r.outcome.Ok? ==>
              && Truthy(code) && Found(table, code.value).Some?
              && var id := Found(table, code.value).value;
              && r.outcome.body == GrantOf(id, table[id])
              && !Inactive(table[id]) && !Expired(table[id], now) && !AtLimit(table[id])
              && UsedOnce(table, r.table, id, now)
  {
    if !Truthy(code) then PromoResult(Err(400, "Promo code is required"), table)
    else
      var found := Found(table, code.value);
      if found.None? then PromoResult(Err(404, "Invalid promo code"), table)
      else Redeem(table, found.value, now)
  }

  // ---------------------------------------------------------------------------
  // Properties

  /** The checks run in order and each failure names the first one that
      fails: inactive before expired before the usage limit. */
  lemma ChecksInOrder(table: map<string, PromoRow>, code: string, now: int)
    requires code != "" && FirstHit(table, Spellings(Trim(code))).Some?
    ensures var row := table[FirstHit(table, Spellings(Trim(code))).value];
            var out := Validate(table, Some(code), now).outcome;
            && (Inactive(row) ==> out == Err(400, "This promo code is no longer active"))
            && (!Inactive(row) && Expired(row, now) ==> out == Err(400, "This promo code has expired"))
            && (!Inactive(row) && !Expired(row, now) && AtLimit(row) ==>
                  out == Err(400, "This promo code has reached its usage limit"))
            && (out.Ok? <==> !Inactive(row) && !Expired(row, now) && !AtLimit(row))
  {
  }

  /** A code typed exactly as stored (after trimming) is always found under
      that spelling, whatever other spellings exist. */
  lemma ExactSpellingWins(table: map<string, PromoRow>, code: string, now: int)
    requires Trim(code) in table
    ensures FirstHit(table, Spellings(Trim(code))) == Some(Trim(code))
  {
  }

  /** The lookup tries the code as typed (trimmed), then its upper-case
      spelling, then its lower-case spelling, and stops at the first row. */
  lemma LookupOrder(table: map<string, PromoRow>, code: string)
    ensures var t := Trim(code);
            Found(table, code) ==
              if t in table then Some(t)
              else if Upper(t) in table then Some(Upper(t))
              else if Lower(t) in table then Some(Lower(t))
              else None
  {
    var t := Trim(code);
    assert Spellings(t) == [t, Upper(t), Lower(t)];
    FirstOfThree(table, t, Upper(t), Lower(t));
  }

  /** The loop over three spellings, unrolled. */
  lemma FirstOfThree(table: map<string, PromoRow>, a: string, b: string, c: string)
    ensures FirstHit(table, [a, b, c]) ==
              if a in table then Some(a)
              else if b in table then Some(b)
              else if c in table then Some(c)
              else None
  {
    assert [c][1..] == [];
    assert FirstHit(table, [c]) == if c in table then Some(c) else None;
    assert [b, c][1..] == [c];
    assert FirstHit(table, [b, c]) == if b in table then Some(b) else FirstHit(table, [c]);
    assert [a, b, c][1..] == [b, c];
    assert FirstHit(table, [a, b, c]) == if a in table then Some(a) else FirstHit(table, [b, c]);
  }

  /** A code stored in upper case is found whatever ASCII case it is typed
      in, and with any surrounding blanks. */
  lemma UpperCaseCodeFound(table: map<string, PromoRow>, code: string, stored: string)
    requires stored in table && Upper(Trim(code)) == stored
    ensures Found(table, code).Some?
    ensures Found(table, code).value in {Trim(code), stored}
  {
    LookupOrder(table, code);
  }

  /** A row with no limit (a null or zero `max_uses`) never reaches it. */
  lemma NoLimitWhenMaxUsesUnset(row: PromoRow)
    requires row.maxUses.None? || row.maxUses == Some(0)
    ensures !AtLimit(row)
  {
  }

  /** Validating `k` times in a row: how many succeeded, and the table after. */
  function Repeat(table: map<string, PromoRow>, code: string, now: int, k: nat): (map<string, PromoRow>, nat)
    decreases k
  {
    if k == 0 then (table, 0)
    else
      var (t, n) := Repeat(table, code, now, k - 1);
      var r := Validate(t, Some(code), now);
      (r.table, if r.outcome.Ok? then n + 1 else n)
  }

  /** The table after n counted uses of `code` (limit m): the same codes,
      the code still active, unexpired and limited to m, with n uses, and
      every other row untouched. */
  predicate AfterUses(table: map<string, PromoRow>, t: map<string, PromoRow>, code: string, now: int, m: int, n: int) {
    && t.Keys == table.Keys
    && code in t && t[code].maxUses == Some(m) && t[code].active == Some(true) && !Expired(t[code], now)
    && NumOrZero(t[code].usedCount) == n
    && t == table[code := t[code]]
  }

  /** A fresh code with `max_uses` = m, typed as stored, validates
      successfully exactly m times in a row, having been used once each time;
      every later attempt hits the limit. */
  lemma {:induction false} UsesAreCounted(table: map<string, PromoRow>, code: string, now: int, m: int, k: nat)
    requires code != "" && Trim(code) == code && code in table
    requires table[code].active == Some(true) && !Expired(table[code], now)
    requires table[code].maxUses == Some(m) && m > 0 && NumOrZero(table[code].usedCount) == 0
    ensures var after := Repeat(table, code, now, k);
            after.1 == (if k <= m then k else m) && AfterUses(table, after.0, code, now, m, after.1)
    decreases k
  {
    if k > 0 {
      UsesAreCounted(table, code, now, m, k - 1);
      RepeatOnce(table, code, now, m, k);
    }
  }

  /** The k-th attempt, given the table after k - 1 attempts: it counts
      exactly when fewer than m have succeeded. */
  lemma RepeatOnce(table: map<string, PromoRow>, code: string, now: int, m: int, k: nat)
    requires code != "" && Trim(code) == code && m > 0 && k > 0
    requires var before := Repeat(table, code, now, k - 1);
             AfterUses(table, before.0, code, now, m, before.1)
    ensures var before := Repeat(table, code, now, k - 1);
            var after := Repeat(table, code, now, k);
            && after.1 == (if before.1 < m then before.1 + 1 else before.1)
            && AfterUses(table, after.0, code, now, m, after.1)
  {
    var before := Repeat(table, code, now, k - 1);
    OneMoreAttempt(table, before.0, code, now, m, before.1);
    var r := Validate(before.0, Some(code), now);
    assert Repeat(table, code, now, k) == (r.table, if r.outcome.Ok? then before.1 + 1 else before.1);
  }

  /** One more attempt on an active, unexpired code typed as stored, used n
      times under a limit of m: it succeeds and counts exactly when n < m,
      and touches no other row. */
  lemma OneMoreAttempt(table: map<string, PromoRow>, t: map<string, PromoRow>, code: string, now: int, m: int, n: int)
    requires code != "" && Trim(code) == code && m > 0 && AfterUses(table, t, code, now, m, n)
    ensures var r := Validate(t, Some(code), now);
            && (r.outcome.Ok? <==> n < m)
            && AfterUses(table, r.table, code, now, m, if n < m then n + 1 else n)
  {
    ExactSpellingWins(t, code, now);
    assert Found(t, code) == Some(code);
  }

  /** Once m validations have succeeded, the next attempt is refused. */
  lemma LimitAfterMaxUses(table: map<string, PromoRow>, code: string, now: int, m: int)
    requires code != "" && Trim(code) == code && code in table
    requires table[code].active == Some(true) && !Expired(table[code], now)
    requires table[code].maxUses == Some(m) && m > 0 && NumOrZero(table[code].usedCount) == 0
    ensures var (t, n) := Repeat(table, code, now, m);
            n == m && Validate(t, Some(code), now).outcome == Err(400, "This promo code has reached its usage limit")
  {
    UsesAreCounted(table, code, now, m, m);
    var (t, n) := Repeat(table, code, now, m);
    ExactSpellingWins(t, code, now);
  }
}
