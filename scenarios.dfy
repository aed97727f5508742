/** The scenarios of the library's own test suite, plus one list-recipient
    example (`ThreeRecipientsOneBlank`), stated over the model. */
module Scenarios {
  import opened Wrappers
  import opened Errors
  import opened RubyText
  import opened Client
  import opened Mail

  /** Without a sender and with the initial defaults, validation fails; with
      a sender but no recipient, or a recipient that is an Integer, it fails
      on the recipient's class. */
  lemma RejectedEmails()
    ensures Validate(Initialized(NoOptions, InitialDefaults)) == Fail(ValidationError(MissingFromMessage))
    ensures Validate(Initialized(NoOptions.(from := Some("foo@bar.com")), InitialDefaults))
      == Fail(ValidationError("Expected an instance of Array or String for the to address but got NilClass instead"))
    ensures Validate(Initialized(NoOptions.(from := Some("foo@bar.com"), to := OtherObject("Integer")), InitialDefaults)).Fail?
  {
    assert WrongRecipientMessage(Nil)
      == "Expected an instance of Array or String for the to address but got NilClass instead";
  }

  /** A list of three recipients, the middle one blank, yields member keys 1
      and 2 only, in list order. */
  lemma ThreeRecipientsOneBlank(m: Message)
    requires Validate(m).Pass?
    requires m.to == List([Some("a@example.com"), Some(""), Some("b@example.com")])
    ensures "Destination.toAddresses.member.1" in RequestParams(m)
    ensures RequestParams(m)["Destination.toAddresses.member.1"] == Some("a@example.com")
    ensures "Destination.toAddresses.member.2" in RequestParams(m)
    ensures RequestParams(m)["Destination.toAddresses.member.2"] == Some("b@example.com")
    ensures "Destination.toAddresses.member.3" !in RequestParams(m)
    ensures "Destination.ToAddresses.member.1" !in RequestParams(m)
  {
    var entries := m.to.entries;
    assert entries[..1][..0] == [];
    assert NonBlank(entries[..1]) == ["a@example.com"];
    assert entries[..2][..1] == entries[..1];
    assert NonBlank(entries[..2]) == ["a@example.com"];
    assert entries[..2] == entries[..|entries| - 1];
    assert NonBlank(entries) == ["a@example.com", "b@example.com"];
    ListRecipients(m);
    assert MemberKey(ListPrefix, 1) == "Destination.toAddresses.member.1";
    assert MemberKey(ListPrefix, 2) == "Destination.toAddresses.member.2";
    assert MemberKey(ListPrefix, 3) == "Destination.toAddresses.member.3";
  }

  /** A 200 reply with the success shape yields its message id; a 400 reply
      with the error shape raises with the provider's message. */
  lemma ReplyExamples(id: string, body: string)
    ensures Interpret(Response(200, SendEmailResponse(Some(id)), body)) == Ok(Some(id))
    ensures Interpret(Response(400, ErrorResponse(Some("Something went wrong")), body))
      == Err(SesError("Failed to send the Email: Something went wrong"))
  {
    assert DeliveryFailedPrefix + "Something went wrong" == "Failed to send the Email: Something went wrong";
  }

  /** Neither key set: the access key is named; only the access key set: the
      secret key is named; both set: the check passes. */
  lemma KeyExamples()
    ensures KeyCheck(Defaults) == Fail(SesError(MissingKeyMessage("access_key")))
    ensures KeyCheck(Defaults.(accessKey := Some("access"))) == Fail(SesError(MissingKeyMessage("secret_key")))
    ensures KeyCheck(Defaults.(accessKey := Some("access"), secretKey := Some("secret"))) == Pass
  {
  }

  /** With keys "access" and "secret" the header is the fixed template around
      the chomped Base64 of the HMAC of "secret" and the time. */
  lemma SignatureExample(crypto: Crypto, time: string, version: Option<string>)
    ensures Signature(Config(Some("access"), Some("secret"), version), crypto, time)
      == "AWS3-HTTPS AWSAccessKey=access, Signature="
         + Chomp(crypto.encode64(crypto.hmacSha256("secret", time)))
         + ", Algorithm=HmacSHA256"
  {
    assert SignaturePrefix + "access" + SignatureMiddle == "AWS3-HTTPS AWSAccessKey=access, Signature=";
  }
}
