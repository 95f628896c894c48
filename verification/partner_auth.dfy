/**
 * The partner API authorizer: compares the `authorizationToken` header with the partner
 * token held in the parameter store and answers with a one-statement IAM policy.
 */
module PartnerAuth {
  import opened Wrappers
  import opened JsText
  import opened ParameterStore

  const MissingParamsText := "invalid request, missing the parameters  in body"
  const TokenHeader := "authorizationToken"
  const PrincipalId := "PartnerCognito"
  const PolicyVersion := "2012-10-17"
  const InvokeAction := "execute-api:Invoke"

  /** The request as the authorizer sees it: its headers and the ARN of the method called. */
  datatype AuthEvent = AuthEvent(headers: map<string, string>, methodArn: Option<string>)

  datatype Effect = Allow | Deny

  datatype Statement = Statement(action: string, resource: Option<string>, effect: Effect)

  /** A 400 response, or the policy document the gateway enforces. */
  datatype AuthResult =
    | Rejected(statusCode: int, body: string)
    | Policy(principalId: string, version: string, statements: seq<Statement>)

  /** The header value when it is present and truthy (a non-empty string). */
  predicate HasToken(event: AuthEvent) {
    TokenHeader in event.headers && event.headers[TokenHeader] != ""
  }

  /**
   * The decision: Deny for a sentinel secret, otherwise Allow exactly when the header
   * equals the secret's text with white space trimmed; the header is compared as sent.
   */
  function Decide(authToken: string, secret: SsmValue): (e: Effect)
    ensures e == Allow ==> !UnusableToken(secret) && authToken != ""
    ensures e == Allow ==> authToken == Trim(TokenString(secret))
    ensures !UnusableToken(secret) && authToken != "" && authToken == Trim(TokenString(secret)) ==> e == Allow
  {
    if UnusableToken(secret) then Deny
    else if authToken == "" || authToken != Trim(TokenString(secret)) then Deny
    else Allow
  }

  /**
   * The handler, given the `TOKEN_PATH` setting and what the parameter-store lookup of
   * that path returned.
   */
  function Authorize(event: AuthEvent, tokenPath: Option<string>, secret: SsmValue): (r: AuthResult)
    ensures !HasToken(event) ==> r == Rejected(400, MissingParamsText)
    ensures HasToken(event) && !EnvSet(tokenPath) ==> r == Rejected(400, MissingParamsText)
    ensures r.Rejected? <==> !HasToken(event) || !EnvSet(tokenPath)
    ensures r.Policy? ==>
              && r.principalId == PrincipalId && r.version == PolicyVersion
              && |r.statements| == 1
              && r.statements[0].action == InvokeAction
              && r.statements[0].resource == event.methodArn
    ensures r.Policy? ==>
              (r.statements[0].effect == Allow
               <==> !UnusableToken(secret) && event.headers[TokenHeader] == Trim(TokenString(secret)))
  {
    if !HasToken(event) then Rejected(400, MissingParamsText)
    else if !EnvSet(tokenPath) then Rejected(400, MissingParamsText)
    else
      var auth := Decide(event.headers[TokenHeader], secret);
      Policy(PrincipalId, PolicyVersion, [Statement(InvokeAction, event.methodArn, auth)])
  }

  /** An allowed header carries no white space at either end, so trimming it changes nothing. */
  lemma AllowedHeaderIsTrimmed(event: AuthEvent, tokenPath: Option<string>, secret: SsmValue)
    requires Authorize(event, tokenPath, secret).Policy?
    requires Authorize(event, tokenPath, secret).statements[0].effect == Allow
    ensures Trim(event.headers[TokenHeader]) == event.headers[TokenHeader]
  {
    TrimNoSpace(event.headers[TokenHeader]);
  }

  /**
   * The secret is trimmed but the header is not: a header ending in white space is denied,
   * even when it is character for character the stored secret.
   */
  lemma PaddedHeaderDenied(event: AuthEvent, tokenPath: Option<string>, secret: SsmValue)
    requires HasToken(event) && EnvSet(tokenPath)
    requires IsJsSpace(event.headers[TokenHeader][|event.headers[TokenHeader]| - 1])
    ensures Authorize(event, tokenPath, secret).statements[0].effect == Deny
  {
  }

  /** For instance, the header "abc " against the stored secret "abc ". */
  lemma IdenticalPaddedSecretDenied(arn: Option<string>)
    ensures Authorize(AuthEvent(map[TokenHeader := "abc "], arn), Some("/token"), Text("abc ")).statements[0].effect == Deny
  {
    var event := AuthEvent(map[TokenHeader := "abc "], arn);
    assert event.headers[TokenHeader] == "abc ";
    PaddedHeaderDenied(event, Some("/token"), Text("abc "));
  }

  /**
   * The order worker sends the trimmed text of the same secret as its `authorizationToken`;
   * when that text is not empty the authorizer allows the call, and when the secret is only
   * white space the worker's empty header is rejected with 400.
   */
  lemma WorkerTokenAccepted(secret: SsmValue, tokenPath: Option<string>, arn: Option<string>)
    requires !UnusableToken(secret) && EnvSet(tokenPath)
    ensures var sent := Trim(TokenString(secret));
            var r := Authorize(AuthEvent(map[TokenHeader := sent], arn), tokenPath, secret);
            && (sent != "" ==> r == Policy(PrincipalId, PolicyVersion, [Statement(InvokeAction, arn, Allow)]))
            && (sent == "" ==> r == Rejected(400, MissingParamsText))
  {
  }
}
