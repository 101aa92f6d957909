/**
Header lists as Proxygen keeps them: an ordered multimap whose names are compared without regard to case
(section 5.1 of RFC 9110), and the messages and response parts the gateway handles.
*/
module Http {
  import opened Prelude

  /** Octets; each `char` stands for one. */
  type Bytes = seq<char>

  datatype Header = Header(name: string, value: string)
  type Headers = seq<Header>

  function LowerChar(c: char): char {
    if 'A' <= c <= 'Z' then (c as int + 32) as char else c
  }

  function Lower(s: string): (r: string)
    ensures |r| == |s|
  {
    seq(|s|, i requires 0 <= i < |s| => LowerChar(s[i]))
  }

  function ValueOf(name: string): Header -> Option<string> {
    (h: Header) => if Lower(h.name) == Lower(name) then Some(h.value) else None
  }

  function OutsideOf(names: set<string>): Header -> Option<Header> {
    (h: Header) => if Lower(h.name) in names then None else Some(h)
  }

  /** All values under a name, in order. */
  function Values(hs: Headers, name: string): seq<string> {
    FilterMap(ValueOf(name), hs)
  }

  /** The headers whose lower-case names are not in `names`, in order and with duplicates. */
  function Without(hs: Headers, names: set<string>): Headers {
    FilterMap(OutsideOf(names), hs)
  }

  function GetSingleOrEmpty(hs: Headers, name: string): string {
    var vs := Values(hs, name);
    if |vs| == 1 then vs[0] else ""
  }

  function Add(hs: Headers, name: string, value: string): Headers {
    hs + [Header(name, value)]
  }

  function Remove(hs: Headers, name: string): Headers {
    Without(hs, {Lower(name)})
  }

  function Set(hs: Headers, name: string, value: string): Headers {
    Add(Remove(hs, name), name, value)
  }

  /** Header names are compared without regard to case. */
  lemma CaseIgnored(hs: Headers, a: string, b: string)
    requires |a| == |b|
    requires forall i | 0 <= i < |a| :: a[i] == b[i] || ('A' <= a[i] <= 'Z' && b[i] as int == a[i] as int + 32)
    ensures Values(hs, a) == Values(hs, b)
  {
    assert Lower(a) == Lower(b);
    FilterMapExtensional(ValueOf(a), ValueOf(b), hs);
  }

  lemma ValuesAfterWithout(hs: Headers, names: set<string>, name: string)
    ensures Values(Without(hs, names), name) == if Lower(name) in names then [] else Values(hs, name)
  {
    if Lower(name) in names {
      var none := (h: Header) => None;
      FilterMapCompose<Header, Header, string>(OutsideOf(names), ValueOf(name), none, hs);
      FilterMapNone<Header, string>(none, hs);
    } else {
      FilterMapCompose(OutsideOf(names), ValueOf(name), ValueOf(name), hs);
    }
  }

  lemma WithoutTwice(hs: Headers, inner: set<string>, outer: set<string>)
    ensures Without(Without(hs, inner), outer) == Without(hs, inner + outer)
  {
    FilterMapCompose(OutsideOf(inner), OutsideOf(outer), OutsideOf(inner + outer), hs);
  }

  /** `set` leaves one value under the name, and touches no other name. */
  lemma SetValues(hs: Headers, name: string, value: string, other: string)
    ensures Values(Set(hs, name, value), other) == if Lower(other) == Lower(name) then [value] else Values(hs, other)
  {
    ValuesAfterWithout(hs, {Lower(name)}, other);
    FilterMapSnoc(ValueOf(other), Remove(hs, name), Header(name, value));
  }

  lemma RemoveValues(hs: Headers, name: string, other: string)
    ensures Values(Remove(hs, name), other) == if Lower(other) == Lower(name) then [] else Values(hs, other)
  {
    ValuesAfterWithout(hs, {Lower(name)}, other);
  }

  lemma SetOutside(hs: Headers, name: string, value: string, names: set<string>)
    requires Lower(name) in names
    ensures Without(Set(hs, name, value), names) == Without(hs, names)
  {
    WithoutTwice(hs, {Lower(name)}, names);
    assert {Lower(name)} + names == names;
    FilterMapSnoc(OutsideOf(names), Remove(hs, name), Header(name, value));
  }

  lemma RemoveOutside(hs: Headers, name: string, names: set<string>)
    requires Lower(name) in names
    ensures Without(Remove(hs, name), names) == Without(hs, names)
  {
    WithoutTwice(hs, {Lower(name)}, names);
    assert {Lower(name)} + names == names;
  }

  // ---------------------------------------------------------------- the names the gateway edits

  const HOST := "Host"
  const AUTHORIZATION := "Authorization"
  const REQUEST_ID := "x-request-id"
  const TRACE_ID := "x-trace-id"
  const JWT_SUBJECT := "x-jwt-subject"
  const JWT_ISSUER := "x-jwt-issuer"
  const AUTH_METHOD := "x-auth-method"

  /** Read by the rate limiter, edited by nobody. */
  const TENANT_ID := "x-tenant-id"
  const ROUTE_ID := "x-route-id"

  lemma NamesDistinct()
    ensures Lower(REQUEST_ID) != Lower(TRACE_ID)
    ensures Lower(REQUEST_ID) != Lower(HOST) && Lower(TRACE_ID) != Lower(HOST)
    ensures Lower(AUTHORIZATION) !in {Lower(HOST), Lower(REQUEST_ID), Lower(TRACE_ID)}
    ensures {Lower(JWT_SUBJECT),
                Lower(JWT_ISSUER), Lower(AUTH_METHOD)}
            !! {Lower(HOST), Lower(REQUEST_ID), Lower(TRACE_ID), Lower(AUTHORIZATION)}
    ensures Lower(JWT_SUBJECT) != Lower(JWT_ISSUER) && Lower(JWT_SUBJECT) != Lower(AUTH_METHOD)
    ensures Lower(JWT_ISSUER) != Lower(AUTH_METHOD)
    ensures {Lower(TENANT_ID), Lower(ROUTE_ID)}
            !! {Lower(REQUEST_ID), Lower(TRACE_ID), Lower(AUTHORIZATION), Lower(JWT_SUBJECT),
                Lower(JWT_ISSUER), Lower(AUTH_METHOD)}
  {
    assert Lower(JWT_SUBJECT)[2] == 'j' && Lower(AUTH_METHOD)[2] == 'a';
    assert Lower(ROUTE_ID)[2] == 'r' && Lower(TRACE_ID)[2] == 't';
    assert Lower(AUTHORIZATION)[0] == 'a';
    assert Lower(JWT_SUBJECT)[0] == 'x' && Lower(AUTH_METHOD)[0] == 'x';
    assert Lower(JWT_ISSUER)[2] == 'j' && Lower(REQUEST_ID)[2] == 'r';
  }

  // ---------------------------------------------------------------- messages

  /** A request; `path` and `query` are the parts Proxygen parses out of `url`. */
  datatype HttpMessage = HttpMessage(verb: string, url: string, path: string, query: string, headers: Headers)

  datatype ResponseHead = ResponseHead(status: nat, headers: Headers)

  /** What a ResponseHandler is asked to send to the client. */
  datatype Send = SendHeaders(head: ResponseHead) | SendBody(bytes: Bytes) | SendEOM

  /** ResponseBuilder::sendWithEOM with a JSON body. */
  function FullResponse(status: nat, body: Bytes): seq<Send> {
    [SendHeaders(ResponseHead(status, [Header("Content-Type", "application/json")])), SendBody(body), SendEOM]
  }

  /** The client-facing end of one request. */
  class ResponseHandler {
    var sent: seq<Send>

    constructor ()
      ensures sent == []
    {
      sent := [];
    }

    method Emit(parts: seq<Send>)
      modifies this
      ensures sent == old(sent) + parts
    {
      sent := sent + parts;
    }
  }
}
