/** The server-side conversion event (`sendMetaPurchaseEvent`) and client
    address selection (`getClientIp`), which api/create-payment.js and
    api/webhooks/mercadopago.js each define identically. SHA-256 and
    `encodeURIComponent` are parameters; the clock is a parameter. */
module Conversion {
  import opened Base
  import opened Text
  import opened Wire

  /** Request headers by lower-case name, and the socket's remote address. */
  datatype Peer = Peer(headers: map<string, string>, remoteAddress: Option<string>)

  function Header(p: Peer, name: string): Option<string> {
    if name in p.headers then Some(p.headers[name]) else None
  }

  /** The forwarding headers consulted, in order. */
  const IpHeaders: seq<string> := ["x-vercel-forwarded-for", "x-forwarded-for", "x-real-ip"]

  /** The index of the first candidate that is a string with something other
      than white space, or `|cands|`. */
  function FirstNonBlank(cands: seq<Option<string>>): (i: nat)
    ensures i <= |cands|
    ensures forall j :: 0 <= j < i ==> cands[j].None? || IsBlank(cands[j].value)
    ensures i < |cands| ==> cands[i].Some? && !IsBlank(cands[i].value)
  {
    if cands == [] then 0
    else if cands[0].Some? && Trim(cands[0].value) != [] then 0
    else 1 + FirstNonBlank(cands[1..])
  }

  /** `c.split(',')[0].trim()`: the first hop of a forwarding list. */
  function FirstHop(c: string): (r: string)
    ensures ',' !in r
    ensures r == [] || (!IsSpace(r[0]) && !IsSpace(r[|r| - 1]))
  {
    var first := Split(c, ',')[0];
    TrimIsInfix(first);
    Trim(first)
  }

  /** `getClientIp(req)`: the first hop of the first non-blank forwarding
      header, else the socket's address. */
  function ClientIp(p: Peer): (r: Option<string>)
    ensures var cands := [Header(p, IpHeaders[0]), Header(p, IpHeaders[1]), Header(p, IpHeaders[2])];
            var i := FirstNonBlank(cands);
            && (i < 3 ==> r == Some(FirstHop(cands[i].value)))
            && (i == 3 ==> r == p.remoteAddress)
  {
    var cands := [Header(p, IpHeaders[0]), Header(p, IpHeaders[1]), Header(p, IpHeaders[2])];
    var i := FirstNonBlank(cands);
    if i < 3 then Some(FirstHop(cands[i].value)) else p.remoteAddress
  }

  /** A forwarding list `client, proxy…` yields the client, trimmed. */
  lemma {:induction false} FirstHopOfList(client: string, rest: string)
    requires ',' !in client
    ensures FirstHop(client + "," + rest) == Trim(client)
  {
    SplitAfterPiece(client, rest, ',');
    assert client + "," + rest == client + [','] + rest;
  }

  /** `String(v || '').trim().toLowerCase()` */
  function Normalize(v: Option<string>): string {
    ToLowerAscii(Trim(OrEmpty(Truthy(v))))
  }

  /** A string that neither starts nor ends with white space is its own trim. */
  lemma TrimOfTrimmed(s: string)
    requires s == [] || (!IsSpace(s[0]) && !IsSpace(s[|s| - 1]))
    ensures Trim(s) == s
  {
    if s != [] {
      assert LeadingSpaces(s) == 0;
      assert TrailingStart(s) == |s|;
    }
  }

  /** Lower-casing neither creates nor removes white space. */
  lemma LowerKeepsSpaces(s: string)
    ensures forall k :: 0 <= k < |s| ==> (IsSpace(ToLowerAscii(s)[k]) <==> IsSpace(s[k]))
  {
    var r := ToLowerAscii(s);
    forall k | 0 <= k < |s| ensures IsSpace(r[k]) <==> IsSpace(s[k]) {
      LowerAt(s, k);
    }
  }

  lemma {:induction false} LowerAt(s: string, k: nat)
    requires k < |s|
    ensures 'A' <= s[k] <= 'Z' ==> ToLowerAscii(s)[k] == (s[k] - 'A' + 'a') as char
    ensures !('A' <= s[k] <= 'Z') ==> ToLowerAscii(s)[k] == s[k]
  {
    if k > 0 {
      LowerAt(s[1..], k - 1);
    }
  }

  lemma {:induction false} LowerIdempotent(s: string)
    ensures ToLowerAscii(ToLowerAscii(s)) == ToLowerAscii(s)
  {
    var r := ToLowerAscii(s);
    forall k | 0 <= k < |r| ensures ToLowerAscii(r)[k] == r[k] {
      LowerAt(r, k);
    }
  }

  /** Normalizing an already normalized e-mail changes nothing, so hashing
      is insensitive to surrounding white space and to ASCII case. */
  lemma NormalizeIdempotent(v: Option<string>)
    ensures Normalize(Some(Normalize(v))) == Normalize(v)
  {
    var t := Trim(OrEmpty(Truthy(v)));
    var n := ToLowerAscii(t);
    LowerKeepsSpaces(t);
    TrimOfTrimmed(n);
    LowerIdempotent(t);
  }

  /** The keys `user_data` may carry. */
  const UserKeys: set<string> := {"em", "ph", "external_id", "fbp", "fbc"}

  /** The value `sendMetaPurchaseEvent` computes for one `user_data` key;
      `None` when it is undefined (and the key deleted). */
  function UserField(key: string, user: Option<User>, meta: Option<Meta>, sha256: string -> string): Option<string> {
    var email := Normalize(if user.Some? then user.value.email else None);
    var phone := DigitsOnly(OrEmpty(Truthy(if user.Some? then user.value.phone else None)));
    var doc := DigitsOnly(OrEmpty(Truthy(if user.Some? then user.value.document else None)));
    if key == "em" then (if email != [] then Some(sha256(email)) else None)
    else if key == "ph" then (if phone != [] then Some(sha256(phone)) else None)
    else if key == "external_id" then (if doc != [] then Some(sha256(doc)) else None)
    else if key == "fbp" then (if meta.Some? then Truthy(meta.value.fbp) else None)
    else if key == "fbc" then (if meta.Some? then Truthy(meta.value.fbc) else None)
    else None
  }

  /** The `user_data` object after the undefined keys are deleted. */
  function UserData(user: Option<User>, meta: Option<Meta>, sha256: string -> string): (m: map<string, string>)
    ensures forall k :: k in m <==> k in UserKeys && UserField(k, user, meta, sha256).Some?
    ensures forall k :: k in m ==> m[k] == UserField(k, user, meta, sha256).value
  {
    map k | k in UserKeys && UserField(k, user, meta, sha256).Some? :: UserField(k, user, meta, sha256).value
  }

  /** What each key holds: the hashed e-mail after trimming and lower-casing,
      the hashed digits of phone and document, and the raw click cookies;
      each key present exactly when its value is non-empty. */
  lemma UserDataKeys(user: Option<User>, meta: Option<Meta>, sha256: string -> string)
    ensures var m := UserData(user, meta, sha256);
            && m.Keys <= UserKeys
            && var email := Normalize(if user.Some? then user.value.email else None);
            && ("em" in m <==> email != [])
            && ("em" in m ==> m["em"] == sha256(email))
            && var phone := DigitsOnly(OrEmpty(Truthy(if user.Some? then user.value.phone else None)));
            && ("ph" in m <==> phone != [])
            && ("ph" in m ==> m["ph"] == sha256(phone))
            && var doc := DigitsOnly(OrEmpty(Truthy(if user.Some? then user.value.document else None)));
            && ("external_id" in m <==> doc != [])
            && ("external_id" in m ==> m["external_id"] == sha256(doc))
            && ("fbp" in m <==> meta.Some? && Present(meta.value.fbp))
            && ("fbp" in m ==> m["fbp"] == meta.value.fbp.value)
            && ("fbc" in m <==> meta.Some? && Present(meta.value.fbc))
            && ("fbc" in m ==> m["fbc"] == meta.value.fbc.value)
  {
    var m := UserData(user, meta, sha256);
    assert "em" in UserKeys && "ph" in UserKeys && "external_id" in UserKeys && "fbp" in UserKeys && "fbc" in UserKeys;
  }

  /** Formatting does not change the hashed identity: phones or documents
      with the same digits, and e-mails with the same normalized form, give
      the same user data. */
  lemma UserDataIgnoresFormatting(a: User, b: User, meta: Option<Meta>, sha256: string -> string)
    requires Normalize(a.email) == Normalize(b.email)
    requires DigitsOnly(OrEmpty(Truthy(a.phone))) == DigitsOnly(OrEmpty(Truthy(b.phone)))
    requires DigitsOnly(OrEmpty(Truthy(a.document))) == DigitsOnly(OrEmpty(Truthy(b.document)))
    ensures UserData(Some(a), meta, sha256) == UserData(Some(b), meta, sha256)
  {
    forall k ensures UserField(k, Some(a), meta, sha256) == UserField(k, Some(b), meta, sha256) {
      FieldIgnoresFormatting(k, a, b, meta, sha256);
    }
    SameFieldsSameUserData(Some(a), meta, Some(b), meta, sha256);
  }

  /** `user_data` is determined by the values of its keys. */
  lemma SameFieldsSameUserData(u1: Option<User>, m1: Option<Meta>, u2: Option<User>, m2: Option<Meta>, sha256: string -> string)
    requires forall k :: UserField(k, u1, m1, sha256) == UserField(k, u2, m2, sha256)
    ensures UserData(u1, m1, sha256) == UserData(u2, m2, sha256)
  {
    var a := UserData(u1, m1, sha256);
    var b := UserData(u2, m2, sha256);
    assert a.Keys == b.Keys;
    assert forall k | k in a.Keys :: a[k] == b[k];
  }

  lemma FieldIgnoresFormatting(k: string, a: User, b: User, meta: Option<Meta>, sha256: string -> string)
    requires Normalize(a.email) == Normalize(b.email)
    requires DigitsOnly(OrEmpty(Truthy(a.phone))) == DigitsOnly(OrEmpty(Truthy(b.phone)))
    requires DigitsOnly(OrEmpty(Truthy(a.document))) == DigitsOnly(OrEmpty(Truthy(b.document)))
    ensures UserField(k, Some(a), meta, sha256) == UserField(k, Some(b), meta, sha256)
  {
  }

  /** A phone with no digit contributes no `ph` key. */
  lemma NoDigitsNoPhoneKey(user: User, meta: Option<Meta>, sha256: string -> string)
    requires user.phone.Some? && forall k :: 0 <= k < |user.phone.value| ==> !IsDigit(user.phone.value[k])
    ensures "ph" !in UserData(Some(user), meta, sha256)
  {
    DigitsOnlyNoDigits(user.phone.value);
    UserDataKeys(Some(user), meta, sha256);
  }

  /** The conversion API credentials and optional test code. */
  datatype MetaEnv = MetaEnv(pixelId: Option<string>, accessToken: Option<string>, testEventCode: Option<string>)

  /** One `custom_data.contents` entry; the price is in cents. */
  datatype Content = Content(id: string, quantity: nat, itemPriceCents: int)

  /** The single event of the payload. */
  datatype PurchaseEvent = PurchaseEvent(
    eventName: string,
    eventTimeSecs: nat,
    eventId: Option<string>,
    actionSource: string,
    eventSourceUrl: Option<string>,
    clientUserAgent: Option<string>,
    clientIpAddress: Option<string>,
    userData: map<string, string>,
    currency: string,
    valueCents: int,
    contents: Option<seq<Content>>)

  /** The POST to the conversion endpoint: URL, event and test code. */
  datatype MetaRequest = MetaRequest(url: string, event: PurchaseEvent, testEventCode: Option<string>)

  function ContentOf(it: Item): Content {
    Content(if it.id.Some? then it.id.value else "", 1, if it.price.Some? then it.price.value else 0)
  }

  /** The arguments of a `sendMetaPurchaseEvent` call. */
  datatype PurchaseArgs = PurchaseArgs(
    paymentId: Option<string>,
    user: Option<User>,
    items: Option<seq<Item>>,
    valueCents: int,
    currency: string,
    eventSourceUrl: Option<string>,
    meta: Option<Meta>,
    clientUserAgent: Option<string>,
    clientIpAddress: Option<string>)

  /** The sum of the contents' prices, in cents. */
  function ContentsTotal(cs: seq<Content>): int {
    if cs == [] then 0 else cs[0].itemPriceCents + ContentsTotal(cs[1..])
  }

  /** `sendMetaPurchaseEvent(args)`: `None` is the `missing_meta_env` skip
      (no request made); otherwise the request it posts. */
  function MetaPurchaseEvent(
    env: MetaEnv, a: PurchaseArgs, nowMs: nat, sha256: string -> string, encode: string -> string): (r: Option<MetaRequest>)
    ensures r.None? <==> !Present(env.pixelId) || !Present(env.accessToken)
    ensures r.Some? ==>
              && r.value.url == "https://graph.facebook.com/v20.0/" + encode(env.pixelId.value)
                                + "/events?access_token=" + encode(env.accessToken.value)
              && r.value.event.eventName == "Purchase" && r.value.event.actionSource == "website"
              && r.value.event.eventTimeSecs == nowMs / 1000
              && r.value.event.eventId == Truthy(a.paymentId)
              && r.value.event.userData == UserData(a.user, a.meta, sha256)
              && r.value.event.valueCents == a.valueCents && r.value.event.currency == a.currency
              && r.value.event.eventSourceUrl == a.eventSourceUrl
              && r.value.event.clientUserAgent == Truthy(a.clientUserAgent)
              && r.value.event.clientIpAddress == Truthy(a.clientIpAddress)
              && r.value.testEventCode == Truthy(env.testEventCode)
              && (a.items.Some? <==> r.value.event.contents.Some?)
              && (a.items.Some? ==>
                    && |r.value.event.contents.value| == |a.items.value|
                    && forall k :: 0 <= k < |a.items.value| ==> r.value.event.contents.value[k] == ContentOf(a.items.value[k]))
  {
    if !Present(env.pixelId) || !Present(env.accessToken) then None
    else
      var contents :=
        if a.items.Some? then Some(seq(|a.items.value|, k requires 0 <= k < |a.items.value| => ContentOf(a.items.value[k])))
        else None;
      var event := PurchaseEvent(
        "Purchase", nowMs / 1000, Truthy(a.paymentId), "website", a.eventSourceUrl,
        Truthy(a.clientUserAgent), Truthy(a.clientIpAddress), UserData(a.user, a.meta, sha256),
        a.currency, a.valueCents, contents);
      Some(MetaRequest(
        "https://graph.facebook.com/v20.0/" + encode(env.pixelId.value) + "/events?access_token=" + encode(env.accessToken.value),
        event, Truthy(env.testEventCode)))
  }
}
