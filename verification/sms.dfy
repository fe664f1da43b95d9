/** The request the handler posts to the SMS gateway for one message. */
module Sms {
  import opened Common

  /** One attempted delivery: recipient, message body, bearer token. */
  datatype Send = Send(phone: string, message: string, token: string)

  /** The headers and JSON payload of one gateway request. */
  datatype SmsRequest = SmsRequest(headers: map<string, string>, payload: map<string, string>)

  const BearerPrefix := "Bearer "

  /** The request for one send; `requestId` is the fresh unique identifier the
      handler generates per request. */
  function BuildSmsRequest(phone: string, message: string, token: string, requestId: string): (r: SmsRequest)
    ensures r.headers.Keys == {"Authorization", "Content-Type", "request-id"}
    ensures r.payload.Keys == {"phoneNumber", "body", "type"}
    ensures r.headers["request-id"] == requestId
    ensures r.headers["Content-Type"] == "application/json"
    ensures r.payload["type"] == "Information"
  {
    SmsRequest(
      map["Authorization" := BearerPrefix + token,
          "Content-Type" := "application/json",
          "request-id" := requestId],
      map["phoneNumber" := phone, "body" := message, "type" := "Information"])
  }

  /** What a gateway request delivers, read back from its payload and its
      bearer header; None for a request not of that shape. */
  function SendOf(r: SmsRequest): Option<Send>
  {
    if "phoneNumber" in r.payload && "body" in r.payload && "Authorization" in r.headers
       && |BearerPrefix| <= |r.headers["Authorization"]|
       && r.headers["Authorization"][..|BearerPrefix|] == BearerPrefix
    then Some(Send(r.payload["phoneNumber"], r.payload["body"], r.headers["Authorization"][|BearerPrefix|..]))
    else None
  }

  /** The request carries exactly the phone, message and token it was built
      from, whatever the request identifier. */
  lemma RequestRoundTrip(s: Send, requestId: string)
    ensures SendOf(BuildSmsRequest(s.phone, s.message, s.token, requestId)) == Some(s)
  {
    var r := BuildSmsRequest(s.phone, s.message, s.token, requestId);
    assert (BearerPrefix + s.token)[|BearerPrefix|..] == s.token;
  }

  /** The gateway's answer: only status 200 is a delivery. */
  function CheckSmsStatus(status: int): (r: Result<(), Error>)
    ensures r.Ok? <==> status == 200
    ensures r.Err? ==> r.error == DeliveryFailure
  {
    if status != HttpOk then Err(DeliveryFailure) else Ok(())
  }
}
