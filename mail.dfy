/** `SES::Email`: an email's fields, their validation, the POST fields of a
    SendEmail request and the interpretation of the reply. */
module Mail {
  import opened Wrappers
  import opened Errors
  import opened RubyText
  import opened Params
  import opened Client

  /** The value of `:to`: nil, a String, an Array whose entries are nil or
      strings, or any other object, identified by its class name. The class
      of an `OtherObject` is never String, Array or a subclass of either. */
  datatype Recipient =
    | Nil
    | Address(address: string)
    | List(entries: seq<Option<string>>)
    | OtherObject(className: string)

  /** `SES::Email::OPTIONS`, passed explicitly. */
  datatype SenderDefaults = SenderDefaults(sender: Option<string>, senderName: Option<string>)

  /** The defaults before the caller sets anything: both are empty strings. */
  const InitialDefaults: SenderDefaults := SenderDefaults(Some(""), Some(""))

  /** The hash given to `Email.new`; a `None` is a key left out. */
  datatype EmailOptions = EmailOptions(
    from: Option<string>,
    name: Option<string>,
    to: Recipient,
    subject: Option<string>,
    body: Option<string>,
    html: Option<bool>,
    charset: Option<string>)

  /** `Email.new` with no options. */
  const NoOptions: EmailOptions := EmailOptions(None, None, Nil, None, None, None, None)

  /** The fields of an email at one moment. */
  datatype Message = Message(
    from: Option<string>,
    name: Option<string>,
    to: Recipient,
    subject: Option<string>,
    body: Option<string>,
    html: bool,
    charset: string)

  /** The fields `initialize` assigns: the sender and its name fall back on
      the defaults, `html` on false and `charset` on UTF-8; the rest are
      stored as given. */
  function Initialized(options: EmailOptions, defaults: SenderDefaults): (m: Message)
    ensures m.from == (if options.from.Some? then options.from else defaults.sender)
    ensures m.name == (if options.name.Some? then options.name else defaults.senderName)
    ensures m.to == options.to && m.subject == options.subject && m.body == options.body
    ensures m.html <==> options.html == Some(true)
    ensures m.charset == (if options.charset.Some? then options.charset.value else "UTF-8")
  {
    Message(
      options.from.Or(defaults.sender),
      options.name.Or(defaults.senderName),
      options.to,
      options.subject,
      options.body,
      options.html.Or(Some(false)).value,
      options.charset.Or(Some("UTF-8")).value)
  }

  /** `@to.class.name` for the shapes of `Recipient`. */
  function ClassName(to: Recipient): string
  {
    match to
    case Nil => "NilClass"
    case Address(_) => "String"
    case List(_) => "Array"
    case OtherObject(c) => c
  }

  const MissingFromMessage: string := "You have to specify the from address"

  function WrongRecipientMessage(to: Recipient): string
  {
    "Expected an instance of Array or String for the to address but got " + ClassName(to) + " instead"
  }

  /** `validate`: a blank sender is reported first, then a recipient that
      is neither an Array nor a String. */
  function Validate(m: Message): (r: Outcome<Failure>)
    ensures r.Pass? <==> !Blank(m.from) && (m.to.List? || m.to.Address?)
    ensures r.Fail? ==> r.error.ValidationError?
    ensures Blank(m.from) ==> r.error.message == MissingFromMessage
    ensures !Blank(m.from) && r.Fail? ==> r.error.message == WrongRecipientMessage(m.to)
  {
    if Blank(m.from) then Fail(ValidationError(MissingFromMessage))
    else if !m.to.List? && !m.to.Address? then Fail(ValidationError(WrongRecipientMessage(m.to)))
    else Pass
  }

  /** The `Source` field: the bare address when the name is nil, otherwise
      `"name <address>"`, even for an empty name. */
  function Source(name: Option<string>, from: string): (r: string)
    ensures name.None? ==> r == from
    ensures name.Some? ==>
      && |r| == |name.value| + |from| + 3
      && r[..|name.value|] == name.value
      && r[|name.value|..|name.value| + 2] == " <"
      && r[|name.value| + 2..|r| - 1] == from
      && r[|r| - 1] == '>'
  {
    if name.None? then from else name.value + " <" + from + ">"
  }

  /** With the initial defaults an email built without a name gets a source
      that starts with a space. */
  lemma DefaultNameSource(from: string)
    ensures Source(Initialized(NoOptions, InitialDefaults).name, from) == " <" + from + ">"
  {
  }

  const ListPrefix: string := "Destination.toAddresses.member."
  const SingleKey: string := "Destination.ToAddresses.member.1"

  /** `"#{prefix}#{n}"`. */
  function MemberKey(prefix: string, n: nat): string
  {
    prefix + Decimal(n)
  }

  lemma MemberKeyInjective(prefix: string, a: nat, b: nat)
    ensures MemberKey(prefix, a) == MemberKey(prefix, b) <==> a == b
  {
    if MemberKey(prefix, a) == MemberKey(prefix, b) {
      assert Decimal(a) == MemberKey(prefix, a)[|prefix|..];
      assert Decimal(b) == MemberKey(prefix, b)[|prefix|..];
      DecimalInjective(a, b);
    }
  }

  /** The non-nil, non-empty entries of a recipient list, in order. */
  function NonBlank(s: seq<Option<string>>): (r: seq<string>)
  {
    if s == [] then []
    else NonBlank(s[..|s| - 1]) + (if Blank(s[|s| - 1]) then [] else [s[|s| - 1].value])
  }

  /** Every kept entry is a non-empty string that occurs in the list. */
  lemma {:induction false} NonBlankEntries(s: seq<Option<string>>)
    ensures |NonBlank(s)| <= |s|
    ensures forall x :: x in NonBlank(s) ==> x != "" && Some(x) in s
  {
    if s != [] {
      NonBlankEntries(s[..|s| - 1]);
    }
  }

  /** Keeping the non-blank entries of a prefix gives a prefix of the result. */
  lemma {:induction false} NonBlankPrefix(s: seq<Option<string>>, n: nat)
    requires n <= |s|
    ensures NonBlank(s[..n]) <= NonBlank(s)
    decreases |s|
  {
    if n < |s| {
      var init := s[..|s| - 1];
      assert init[..n] == s[..n];
      NonBlankPrefix(init, n);
    } else {
      assert s[..n] == s;
    }
  }

  /** The non-blank entry at position `j` is the `(r+1)`-th kept entry, where
      `r` counts the non-blank entries before it. */
  lemma NonBlankRank(s: seq<Option<string>>, j: nat)
    requires j < |s| && !Blank(s[j])
    ensures |NonBlank(s[..j])| < |NonBlank(s)|
    ensures NonBlank(s)[|NonBlank(s[..j])|] == s[j].value
  {
    var p := s[..j + 1];
    assert p[..|p| - 1] == s[..j];
    assert NonBlank(p) == NonBlank(s[..j]) + [s[j].value];
    NonBlankPrefix(s, j + 1);
  }

  /** `num` counts upwards from 1: the n-th kept address under key n. */
  function Members(prefix: string, addrs: seq<string>): (r: ParamMap)
  {
    if addrs == [] then map[]
    else Members(prefix, addrs[..|addrs| - 1])[MemberKey(prefix, |addrs|) := Some(addrs[|addrs| - 1])]
  }

  /** The member keys are exactly those numbered 1 to `|addrs|`. */
  lemma {:induction false} MembersKeys(prefix: string, addrs: seq<string>)
    ensures forall key :: key in Members(prefix, addrs) <==> exists k :: 1 <= k <= |addrs| && key == MemberKey(prefix, k)
  {
    if addrs != [] {
      var init := addrs[..|addrs| - 1];
      MembersKeys(prefix, init);
      forall key | key in Members(prefix, addrs)
        ensures exists k :: 1 <= k <= |addrs| && key == MemberKey(prefix, k)
      {
        if key != MemberKey(prefix, |addrs|) {
          assert key in Members(prefix, init);
        }
      }
    }
  }

  /** Key n holds the n-th address. */
  lemma {:induction false} MembersAt(prefix: string, addrs: seq<string>, k: nat)
    requires 1 <= k <= |addrs|
    ensures MemberKey(prefix, k) in Members(prefix, addrs)
    ensures Members(prefix, addrs)[MemberKey(prefix, k)] == Some(addrs[k - 1])
  {
    var n := |addrs|;
    if k < n {
      var init := addrs[..n - 1];
      MembersAt(prefix, init, k);
      MemberKeyInjective(prefix, k, n);
    }
  }

  /** The destination fields: numbered list keys (lowercase `t`) for an
      Array, the one capital-`T` key for a String. */
  function Destinations(to: Recipient): (r: ParamMap)
    requires to.List? || to.Address?
    ensures to.Address? ==> r.Keys == {SingleKey}
  {
    if to.List? then Members(ListPrefix, NonBlank(to.entries))
    else map[SingleKey := Some(to.address)]
  }

  /** The body field pair: Html when `html` is true, Text otherwise. */
  function BodyPair(m: Message): (r: ParamMap)
    ensures r.Keys == if m.html then {"Message.Body.Html.Data", "Message.Body.Html.Charset"}
                      else {"Message.Body.Text.Data", "Message.Body.Text.Charset"}
  {
    if m.html then map["Message.Body.Html.Data" := m.body, "Message.Body.Html.Charset" := Some(m.charset)]
    else map["Message.Body.Text.Data" := m.body, "Message.Body.Text.Charset" := Some(m.charset)]
  }

  /** The four fields every request carries. */
  function FixedFields(m: Message): (r: ParamMap)
    requires m.from.Some?
    ensures r.Keys == {"Action", "Source", "Message.Subject.Data", "Message.Subject.Charset"}
  {
    map[
      "Action" := Some("SendEmail"),
      "Source" := Some(Source(m.name, m.from.value)),
      "Message.Subject.Data" := m.subject,
      "Message.Subject.Charset" := Some(m.charset)]
  }

  /** The POST fields `deliver` hands to `signed_post`. */
  function RequestParams(m: Message): (r: ParamMap)
    requires Validate(m).Pass?
    ensures r.Keys == FixedFields(m).Keys + BodyPair(m).Keys + Destinations(m.to).Keys
  {
    FixedFields(m) + BodyPair(m) + Destinations(m.to)
  }

  /** No destination key is as short as a fixed field name. */
  lemma NotDestination(to: Recipient, key: string)
    requires to.List? || to.Address?
    requires |key| <= |ListPrefix|
    ensures key !in Destinations(to)
  {
    if to.List? {
      MembersKeys(ListPrefix, NonBlank(to.entries));
    }
  }

  /** The request carries none of the fields `signed_post` adds. */
  lemma ParamsUnsigned(m: Message)
    requires Validate(m).Pass?
    ensures "Timestamp" !in RequestParams(m)
    ensures "Version" !in RequestParams(m)
    ensures "AWSAccessKeyId" !in RequestParams(m)
  {
    NotDestination(m.to, "Timestamp");
    NotDestination(m.to, "Version");
    NotDestination(m.to, "AWSAccessKeyId");
  }

  /** The four fixed fields. */
  lemma ParamsFixed(m: Message)
    requires Validate(m).Pass?
    ensures RequestParams(m)["Action"] == Some("SendEmail")
    ensures RequestParams(m)["Source"] == Some(Source(m.name, m.from.value))
    ensures RequestParams(m)["Message.Subject.Data"] == m.subject
    ensures RequestParams(m)["Message.Subject.Charset"] == Some(m.charset)
  {
    NotDestination(m.to, "Action");
    NotDestination(m.to, "Source");
    NotDestination(m.to, "Message.Subject.Data");
    NotDestination(m.to, "Message.Subject.Charset");
  }

  /** Exactly one body pair, both fields carrying `charset`. */
  lemma ParamsBody(m: Message)
    requires Validate(m).Pass?
    ensures m.html ==>
      && RequestParams(m)["Message.Body.Html.Data"] == m.body
      && RequestParams(m)["Message.Body.Html.Charset"] == Some(m.charset)
      && "Message.Body.Text.Data" !in RequestParams(m)
      && "Message.Body.Text.Charset" !in RequestParams(m)
    ensures !m.html ==>
      && RequestParams(m)["Message.Body.Text.Data"] == m.body
      && RequestParams(m)["Message.Body.Text.Charset"] == Some(m.charset)
      && "Message.Body.Html.Data" !in RequestParams(m)
      && "Message.Body.Html.Charset" !in RequestParams(m)
  {
    NotDestination(m.to, "Message.Body.Html.Data");
    NotDestination(m.to, "Message.Body.Html.Charset");
    NotDestination(m.to, "Message.Body.Text.Data");
    NotDestination(m.to, "Message.Body.Text.Charset");
  }

  /** The fixed fields and body fields never collide with a member key. */
  lemma MemberKeyNotFixed(m: Message, k: nat)
    requires m.from.Some?
    ensures MemberKey(ListPrefix, k) !in FixedFields(m) + BodyPair(m)
  {
    assert |MemberKey(ListPrefix, k)| > |ListPrefix|;
  }

  /** An Array recipient: the k-th kept entry is stored under member key k. */
  lemma ListRecipientAt(m: Message, k: nat)
    requires Validate(m).Pass? && m.to.List?
    requires 1 <= k <= |NonBlank(m.to.entries)|
    ensures MemberKey(ListPrefix, k) in RequestParams(m)
    ensures RequestParams(m)[MemberKey(ListPrefix, k)] == Some(NonBlank(m.to.entries)[k - 1])
  {
    MembersAt(ListPrefix, NonBlank(m.to.entries), k);
  }

  /** An Array recipient: no member key numbered 0 or beyond the number of
      kept entries. */
  lemma ListRecipientBeyond(m: Message, k: nat)
    requires Validate(m).Pass? && m.to.List?
    requires k == 0 || k > |NonBlank(m.to.entries)|
    ensures MemberKey(ListPrefix, k) !in RequestParams(m)
  {
    var nb := NonBlank(m.to.entries);
    MembersKeys(ListPrefix, nb);
    MemberKeyNotFixed(m, k);
    forall j | 1 <= j <= |nb|
      ensures MemberKey(ListPrefix, k) != MemberKey(ListPrefix, j)
    {
      MemberKeyInjective(ListPrefix, k, j);
    }
  }

  /** An Array recipient never produces the capital-`T` key. */
  lemma ListRecipientNoSingleKey(m: Message)
    requires Validate(m).Pass? && m.to.List?
    ensures SingleKey !in RequestParams(m)
  {
    var nb := NonBlank(m.to.entries);
    MembersKeys(ListPrefix, nb);
    forall j | 1 <= j <= |nb|
      ensures SingleKey != MemberKey(ListPrefix, j)
    {
      assert MemberKey(ListPrefix, j)[12] == 't' != SingleKey[12];
    }
    assert SingleKey !in Destinations(m.to);
  }

  /** An Array recipient: the k-th kept entry under member key k, the keys
      numbered 1 to the number of kept entries with no gap, and no
      capital-`T` key. */
  lemma ListRecipients(m: Message)
    requires Validate(m).Pass? && m.to.List?
    ensures forall k :: 1 <= k <= |NonBlank(m.to.entries)| ==>
      && MemberKey(ListPrefix, k) in RequestParams(m)
      && RequestParams(m)[MemberKey(ListPrefix, k)] == Some(NonBlank(m.to.entries)[k - 1])
    ensures forall k :: k == 0 || k > |NonBlank(m.to.entries)| ==> MemberKey(ListPrefix, k) !in RequestParams(m)
    ensures SingleKey !in RequestParams(m)
  {
    forall k | 1 <= k <= |NonBlank(m.to.entries)|
      ensures MemberKey(ListPrefix, k) in RequestParams(m)
      ensures RequestParams(m)[MemberKey(ListPrefix, k)] == Some(NonBlank(m.to.entries)[k - 1])
    {
      ListRecipientAt(m, k);
    }
    forall k | k == 0 || k > |NonBlank(m.to.entries)|
      ensures MemberKey(ListPrefix, k) !in RequestParams(m)
    {
      ListRecipientBeyond(m, k);
    }
    ListRecipientNoSingleKey(m);
  }

  /** A String recipient: the single capital-`T` key holds it as is, and no
      lowercase-`t` key is present. */
  lemma SingleRecipient(m: Message)
    requires Validate(m).Pass? && m.to.Address?
    ensures RequestParams(m)[SingleKey] == Some(m.to.address)
    ensures forall k :: MemberKey(ListPrefix, k) !in RequestParams(m)
  {
    forall k: nat
      ensures MemberKey(ListPrefix, k) !in RequestParams(m)
    {
      MemberKeyNotFixed(m, k);
      assert MemberKey(ListPrefix, k)[12] == 't' != SingleKey[12];
    }
  }

  /** An Array recipient: the request's keys are the fixed fields, the one
      body pair and the member keys numbered 1 to the number of kept entries,
      and nothing else. */
  lemma ListRecipientKeys(m: Message)
    requires Validate(m).Pass? && m.to.List?
    ensures RequestParams(m).Keys == FixedFields(m).Keys + BodyPair(m).Keys
      + (set k | 1 <= k <= |NonBlank(m.to.entries)| :: MemberKey(ListPrefix, k))
  {
    MembersKeys(ListPrefix, NonBlank(m.to.entries));
  }

  /** A String recipient: the request's keys are the fixed fields, the one
      body pair and the single capital-`T` key, and nothing else. */
  lemma SingleRecipientKeys(m: Message)
    requires Validate(m).Pass? && m.to.Address?
    ensures RequestParams(m).Keys == FixedFields(m).Keys + BodyPair(m).Keys + {SingleKey}
  {
  }

  /** An entry of the list ends up under the key numbered one more than the
      count of non-blank entries before it; blank entries have no key. */
  lemma ListEntryKey(m: Message, j: nat)
    requires Validate(m).Pass? && m.to.List? && j < |m.to.entries| && !Blank(m.to.entries[j])
    ensures MemberKey(ListPrefix, |NonBlank(m.to.entries[..j])| + 1) in RequestParams(m)
    ensures RequestParams(m)[MemberKey(ListPrefix, |NonBlank(m.to.entries[..j])| + 1)] == m.to.entries[j]
  {
    NonBlankRank(m.to.entries, j);
    ListRecipients(m);
  }

  const DeliveryFailedPrefix: string := "Failed to send the Email: "
  const NoMessageIdPrefix: string := "Failed to extract the message ID, raw response: "

  /** The tail of `deliver`: a non-200 error reply raises with the provider's
      message, a 200 success reply yields its message id (nil when the
      element is absent), and every other pairing raises with the raw body. */
  function Interpret(resp: Response): (r: Result<Option<string>, Failure>)
    ensures r.Ok? <==> resp.code == 200 && resp.parsed.SendEmailResponse?
    ensures r.Ok? ==> r.value == resp.parsed.messageId
    ensures r.Err? ==> r.error.SesError?
    ensures resp.code != 200 && resp.parsed.ErrorResponse? ==>
      r.error.message == DeliveryFailedPrefix + Interpolate(resp.parsed.message)
    ensures r.Err? && !(resp.code != 200 && resp.parsed.ErrorResponse?) ==>
      r.error.message == NoMessageIdPrefix + resp.body
  {
    if resp.code != 200 && resp.parsed.ErrorResponse? then
      Err(SesError(DeliveryFailedPrefix + Interpolate(resp.parsed.message)))
    else if resp.code == 200 && resp.parsed.SendEmailResponse? then
      Ok(resp.parsed.messageId)
    else
      Err(SesError(NoMessageIdPrefix + resp.body))
  }

  /** One more entry of the list: kept when it is non-blank. */
  lemma NonBlankStep(items: seq<Option<string>>, i: nat)
    requires i < |items|
    ensures NonBlank(items[..i + 1])
      == NonBlank(items[..i]) + (if Blank(items[i]) then [] else [items[i].value])
  {
    assert items[..i + 1][..i] == items[..i];
  }

  /** Keeping one more address adds the next member key. */
  lemma MembersSnoc(kept: seq<string>, v: string)
    ensures Members(ListPrefix, kept + [v])
      == Members(ListPrefix, kept)[MemberKey(ListPrefix, |kept| + 1) := Some(v)]
  {
    var grown := kept + [v];
    assert grown[..|grown| - 1] == kept;
  }

  /** Keeping one more address adds the next member key on top of any
      earlier fields. */
  lemma MembersStep(base: ParamMap, kept: seq<string>, v: string)
    ensures (base + Members(ListPrefix, kept))[MemberKey(ListPrefix, |kept| + 1) := Some(v)]
      == base + Members(ListPrefix, kept + [v])
  {
    MembersSnoc(kept, v);
    UpdateOverUnion(base, Members(ListPrefix, kept), MemberKey(ListPrefix, |kept| + 1), Some(v));
  }

  /** Storing into a merged hash is storing into its right-hand side. */
  lemma UpdateOverUnion(a: ParamMap, b: ParamMap, key: string, value: Option<string>)
    ensures (a + b)[key := value] == a + b[key := value]
  {
    assert ((a + b)[key := value]).Keys == (a + b[key := value]).Keys;
  }

  /** The recipient loop of `deliver`: `num` starts at 1 and advances only
      past a non-nil, non-empty entry, which is stored under member key
      `num`. */
  method AddListRecipients(options: ParamHash, items: seq<Option<string>>)
    modifies options
    ensures options.entries == old(options.entries) + Members(ListPrefix, NonBlank(items))
  {
    var num := 1;
    var i := 0;
    while i < |items|
      invariant 0 <= i <= |items|
      invariant num == |NonBlank(items[..i])| + 1
      invariant options.entries == old(options.entries) + Members(ListPrefix, NonBlank(items[..i]))
    {
      var value := items[i];
      NonBlankStep(items, i);
      if value.Some? && value.value != "" {
        MembersStep(old(options.entries), NonBlank(items[..i]), value.value);
        options.Store(MemberKey(ListPrefix, num), value);
        num := num + 1;
      } else {
        assert NonBlank(items[..i + 1]) == NonBlank(items[..i]);
      }
      i := i + 1;
    }
    assert items[..i] == items;
  }

  /** The body branch of `deliver`: the Html pair when `html` is exactly
      true, the Text pair otherwise. */
  method AddBodyPair(options: ParamHash, m: Message)
    modifies options
    ensures options.entries == old(options.entries) + BodyPair(m)
  {
    if m.html {
      options.Store("Message.Body.Html.Data", m.body);
      options.Store("Message.Body.Html.Charset", Some(m.charset));
    } else {
      options.Store("Message.Body.Text.Data", m.body);
      options.Store("Message.Body.Text.Charset", Some(m.charset));
    }
  }

  /** The part of `deliver` that builds its POST-field hash: the literal
      with the fixed fields, then the body pair, then the destinations. */
  method NewRequestFields(m: Message) returns (options: ParamHash)
    requires Validate(m).Pass?
    ensures fresh(options) && options.entries == RequestParams(m)
  {
    var source := if m.name.None? then m.from.value else m.name.value + " <" + m.from.value + ">";
    options := new ParamHash(map[
      "Action" := Some("SendEmail"),
      "Source" := Some(source),
      "Message.Subject.Data" := m.subject,
      "Message.Subject.Charset" := Some(m.charset)]);
    assert source == Source(m.name, m.from.value);
    ghost var fixed := FixedFields(m);
    assert options.entries == fixed;

    AddBodyPair(options, m);

    if m.to.List? {
      AddListRecipients(options, m.to.entries);
      assert options.entries == fixed + BodyPair(m) + Destinations(m.to);
    } else {
      options.Store(SingleKey, Some(m.to.address));
      assert options.entries == fixed + BodyPair(m) + Destinations(m.to);
    }
  }

  class Email {
    var from: Option<string>
    var name: Option<string>
    var to: Recipient
    var subject: Option<string>
    var body: Option<string>
    var html: bool
    var charset: string

    /** `initialize(options)`, reading the sender defaults. */
    constructor (options: EmailOptions, defaults: SenderDefaults)
      ensures Fields() == Initialized(options, defaults)
    {
      from := options.from.Or(defaults.sender);
      name := options.name.Or(defaults.senderName);
      to := options.to;
      subject := options.subject;
      body := options.body;
      html := options.html.Or(Some(false)).value;
      charset := options.charset.Or(Some("UTF-8")).value;
    }

    function Fields(): Message
      reads this
    {
      Message(from, name, to, subject, body, html, charset)
    }

    /** `deliver`: validates, fills the POST-field hash step by step, hands
        it to `signed_post` and interprets the reply of `transport`. `sent`
        is the request posted, if any. */
    method Deliver(cfg: Config, crypto: Crypto, urlTime: string, sigTime: string, transport: Request -> Response)
      returns (result: Result<Option<string>, Failure>, sent: Option<Request>)
      ensures Validate(Fields()).Fail? ==> result == Err(Validate(Fields()).error) && sent == None
      ensures Validate(Fields()).Pass? && KeyCheck(cfg).Fail? ==> result == Err(KeyCheck(cfg).error) && sent == None
      ensures Validate(Fields()).Pass? && KeyCheck(cfg).Pass? ==>
        && cfg.secretKey.Some?
        && sent == Some(Request("/", Headers(cfg, crypto, sigTime), SignedBody(RequestParams(Fields()), cfg, urlTime)))
        && result == Interpret(transport(sent.value))
    {
      var m := Fields();
      var check := Validate(m);
      if check.Fail? {
        return Err(check.error), None;
      }

      var options := NewRequestFields(m);

      var posted := SignedPost(cfg, crypto, urlTime, sigTime, "/", options);
      if posted.Err? {
        return Err(posted.error), None;
      }
      var response := transport(posted.value);
      return Interpret(response), Some(posted.value);
    }
  }
}
