/**
 * `POST /api/auth/verify`: recover the signer of `message` from `signature`,
 * compare it with the claimed `address` ignoring letter case, and answer
 * 200 `{}`, 401 `{ error: "Signature mismatch" }` or 500 `{ error: "Auth failed" }`.
 * Signature recovery (personal-message hashing and secp256k1 recovery) is the
 * parameter `recover`; `None` stands for an exception thrown by it.
 */
module VerifyRoute {
  import opened Wrappers
  import opened JsString

  /**
   * One field of the parsed body. Numbers, booleans, objects and arrays are
   * `Other`, carried as their JSON text so that distinct values stay distinct
   * (the recovery function may accept some of them, such as a signature given
   * as an object). None of them has a `toLowerCase` method.
   */
  datatype Json = Undefined | Null | Str(s: string) | Other(json: string)

  /**
   * What `await req.json()` yields. A body that parses to a number, string,
   * boolean or array destructures to three undefined fields, which is
   * `Object(map[])`.
   */
  datatype Body = NotJson | NullBody | Object(fields: map<string, Json>)

  datatype ReplyBody = EmptyObject | ErrorObject(error: string)

  datatype Reply = Reply(status: int, body: ReplyBody)

  /** `Unhandled`: an exception escapes the handler, so no reply of the route's own is sent. */
  datatype Outcome = Responded(reply: Reply) | Unhandled

  type Recover = (Json, Json) -> Option<string>

  const SIGNATURE_MISMATCH := "Signature mismatch"
  const AUTH_FAILED := "Auth failed"

  /** Destructuring: a missing key reads as `undefined`. */
  function Field(fields: map<string, Json>, key: string): Json {
    if key in fields then fields[key] else Undefined
  }

  /** The comparison at the heart of the route: does the recovered signer equal the claim? */
  predicate SameAddress(recovered: string, claimed: string) {
    ToLower(recovered) == ToLower(claimed)
  }

  /** The `try` block and its `catch`. */
  function Decide(message: Json, signature: Json, address: Json, recover: Recover): (r: Reply)
    ensures r.status in {200, 401, 500}
    ensures r.status == 200 <==>
      (recover(message, signature).Some? && address.Str? && SameAddress(recover(message, signature).value, address.s))
    ensures r.status == 200 <==> r.body == EmptyObject
    ensures r.status == 401 <==> r.body == ErrorObject(SIGNATURE_MISMATCH)
    ensures r.status == 500 <==> r.body == ErrorObject(AUTH_FAILED)
  {
    match recover(message, signature)
    case None => Reply(500, ErrorObject(AUTH_FAILED))
    case Some(recovered) =>
      if !address.Str? then Reply(500, ErrorObject(AUTH_FAILED))
      else if ToLower(recovered) != ToLower(address.s) then Reply(401, ErrorObject(SIGNATURE_MISMATCH))
      else Reply(200, EmptyObject)
  }

  /** The whole handler, body parsing and destructuring included. */
  function Post(body: Body, recover: Recover): (r: Outcome)
    ensures r.Unhandled? <==> !body.Object?
    ensures r.Responded? ==> r.reply.status in {200, 401, 500}
  {
    match body
    case NotJson => Unhandled
    case NullBody => Unhandled
    case Object(fields) =>
      Responded(Decide(Field(fields, "message"), Field(fields, "signature"), Field(fields, "address"), recover))
  }

  /**
   * The handler on an object body with a recovered signer and a string claim:
   * 200 `{}` exactly when the two agree ignoring case, otherwise 401 mismatch.
   */
  lemma PostAcceptsIffMatch(fields: map<string, Json>, recover: Recover)
    requires recover(Field(fields, "message"), Field(fields, "signature")).Some?
    requires Field(fields, "address").Str?
    ensures Post(Object(fields), recover)
         == if SameAddress(recover(Field(fields, "message"), Field(fields, "signature")).value, Field(fields, "address").s)
            then Responded(Reply(200, EmptyObject))
            else Responded(Reply(401, ErrorObject(SIGNATURE_MISMATCH)))
  {
  }

  /** The handler on an object body whose signature cannot be recovered or whose address is not a string: 500. */
  lemma PostAuthFailed(fields: map<string, Json>, recover: Recover)
    requires recover(Field(fields, "message"), Field(fields, "signature")).None? || !Field(fields, "address").Str?
    ensures Post(Object(fields), recover) == Responded(Reply(500, ErrorObject(AUTH_FAILED)))
  {
  }

  /** Accept exactly when the recovered signer matches the claimed address; otherwise 401 mismatch. */
  lemma AcceptIffMatch(message: Json, signature: Json, claimed: string, recover: Recover)
    requires recover(message, signature).Some?
    ensures var r := Decide(message, signature, Str(claimed), recover);
      && (r == Reply(200, EmptyObject) <==> SameAddress(recover(message, signature).value, claimed))
      && (r != Reply(200, EmptyObject) ==> r == Reply(401, ErrorObject(SIGNATURE_MISMATCH)))
  {
  }

  /** Changing the letter case of the claimed address never changes the outcome. */
  lemma CaseInsensitive(fields: map<string, Json>, a1: string, a2: string, recover: Recover)
    requires ToLower(a1) == ToLower(a2)
    ensures Post(Object(fields["address" := Str(a1)]), recover)
         == Post(Object(fields["address" := Str(a2)]), recover)
  {
    var f1, f2 := fields["address" := Str(a1)], fields["address" := Str(a2)];
    assert Field(f1, "message") == Field(f2, "message");
    assert Field(f1, "signature") == Field(f2, "signature");
  }

  /** In particular, claiming the upper-cased form of an address is the same as claiming it. */
  lemma UpperCaseClaimSame(fields: map<string, Json>, a: string, recover: Recover)
    ensures Post(Object(fields["address" := Str(ToUpper(a))]), recover)
         == Post(Object(fields["address" := Str(a)]), recover)
  {
    ToLowerOfToUpper(a);
    CaseInsensitive(fields, ToUpper(a), a, recover);
  }

  /** A failed recovery, or an address that is not a string, gives 500 "Auth failed". */
  lemma FailuresAreAuthFailed(fields: map<string, Json>, recover: Recover)
    requires recover(Field(fields, "message"), Field(fields, "signature")).None?
          || !Field(fields, "address").Str?
    ensures Post(Object(fields), recover) == Responded(Reply(500, ErrorObject(AUTH_FAILED)))
  {
  }

  /** Only the three fields and the recovery decide the outcome; other keys are ignored. */
  lemma OnlyThreeFieldsMatter(f1: map<string, Json>, f2: map<string, Json>, recover: Recover)
    requires forall k :: k in {"message", "signature", "address"} ==> Field(f1, k) == Field(f2, k)
    ensures Post(Object(f1), recover) == Post(Object(f2), recover)
  {
    assert Field(f1, "message") == Field(f2, "message");
    assert Field(f1, "signature") == Field(f2, "signature");
    assert Field(f1, "address") == Field(f2, "address");
  }
}
