/**
 * The two readings of `req.body.remember` in the login handler: the strict
 * test that picks the token lifetime, and the truthiness test that picks the
 * `maxAge` hint sent back to the client.
 */
module RememberFlag {
  import opened Completion
  import opened JsValues

  /** The `expiresIn` values handed to the token signer. */
  const LongDuration: string := "8760h"
  const ShortDuration: string := "24h"

  /** The `maxAge` hint (in days) for a remembered login. */
  const RememberedMaxAge: int := 365

  /** The strict test: `remember === true || remember === 'true'`. */
  predicate StrictlyRemembered(remember: JsValue)
  {
    StrictEquals(remember, Bool(true)) || StrictEquals(remember, Str("true"))
  }

  /**
   * The token lifetime: "8760h" exactly for boolean `true` and the string
   * "true"; every other value, including "TRUE", 1 and "false", gives "24h".
   */
  function TokenDuration(remember: JsValue): (d: string)
    ensures d == LongDuration <==> remember == Bool(true) || remember == Str("true")
    ensures d == ShortDuration <==> remember != Bool(true) && remember != Str("true")
  {
    if StrictlyRemembered(remember) then LongDuration else ShortDuration
  }

  /** The `maxAge` hint: 365 when the flag is truthy, `null` otherwise. */
  function MaxAge(remember: JsValue): (m: Option<int>)
    ensures m == Some(RememberedMaxAge) <==> Truthy(remember)
    ensures m == None <==>
      remember in {Undefined, Null, Bool(false), Num(Finite(0.0)), Num(NaN), BigInt(0), Str("")}
  {
    if Truthy(remember) then Some(RememberedMaxAge) else None
  }

  /**
   * The strict test implies the truthy one: a long-lived token always comes
   * with the 365-day hint, and a missing hint always means a 24-hour token.
   */
  lemma LongTokenHasMaxAge(remember: JsValue)
    ensures TokenDuration(remember) == LongDuration ==> MaxAge(remember) == Some(RememberedMaxAge)
    ensures MaxAge(remember) == None ==> TokenDuration(remember) == ShortDuration
  {
  }

  /**
   * The two tests disagree on exactly the truthy values other than `true` and
   * "true": for those the token lives 24 hours while the hint claims 365 days.
   */
  lemma TestsDisagreeExactly(remember: JsValue)
    ensures (TokenDuration(remember) == ShortDuration && MaxAge(remember) == Some(RememberedMaxAge))
      <==> Truthy(remember) && remember != Bool(true) && remember != Str("true")
    ensures !(TokenDuration(remember) == LongDuration && MaxAge(remember) == None)
  {
  }

  /** Requests that send `"false"`, `1`, `"yes"` or an object get a 24-hour token and `maxAge` 365. */
  lemma DisagreementExamples(ref: nat)
    ensures TokenDuration(Str("false")) == ShortDuration && MaxAge(Str("false")) == Some(RememberedMaxAge)
    ensures TokenDuration(Num(Finite(1.0))) == ShortDuration && MaxAge(Num(Finite(1.0))) == Some(RememberedMaxAge)
    ensures TokenDuration(Str("yes")) == ShortDuration && MaxAge(Str("yes")) == Some(RememberedMaxAge)
    ensures TokenDuration(Object(ref)) == ShortDuration && MaxAge(Object(ref)) == Some(RememberedMaxAge)
  {
  }
}
