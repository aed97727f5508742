# SES client: request building and reply classification

A Dafny model of the part of the `ses` Ruby gem that sends one email through
Amazon SES's `SendEmail` action:

- `SES::Email`: the email's fields and defaults, `validate`, and `deliver`.
  `deliver` builds the POST-field hash one insertion at a time and numbers
  list recipients with a counter. It hands the hash to the client and turns
  the reply into a message id or an error.
- `SES::Client`: `verify_keys`, `signed_post` and `signature`. `signed_post`
  adds the protocol fields to the caller's hash in place and builds the two
  headers from one time string. `signature` is the `AWS3-HTTPS` header
  template.

Modules, one per concern:

- `Wrappers`: `Option` (Ruby `nil`), `Outcome`, `Result`.
- `Errors`: the two exception classes `SES::Error` and `SES::ValidationError`.
  Neither derives from the other, so they are two constructors of `Failure`.
- `RubyText`: `nil?`/`empty?`, string interpolation of nil, `Integer#to_s`
  with its round trip, and `String#chomp`.
- `Params`: the POST-field hash as a class (`ParamHash`). The hash is shared
  by reference and changed in place.
- `Client`: configuration, key check, signature, headers and `SignedPost`.
- `Mail`: recipients, defaults, validation, the specification of the POST
  fields, reply classification, and the `Email` class with `Deliver`.
- `Scenarios`: the cases of the gem's own test suite, plus one list-recipient
  example (`ThreeRecipientsOneBlank`), stated as lemmas.

The global `OPTIONS` hashes of both classes are explicit parameters:
`Client.Config` and `Mail.SenderDefaults`. Their initial values are
`Client.Defaults` and `Mail.InitialDefaults`.

Boundaries of the model:

- The clock is a parameter. `Deliver` and `SignedPost` take the two already
  formatted time strings (`urlTime`, `sigTime`) of the one sampled instant.
- HMAC-SHA256 and `Base64.encode64` are function-valued fields of
  `Client.Crypto`. The model applies `chomp` to their result explicitly.
- The HTTParty `post` is the parameter `transport: Request -> Response`.
  `Deliver` also returns the request it posted (`sent`), so "no request was
  made" can be stated directly.
- The parsed XML reply is `Client.Parsed`. `SendEmailResponse(messageId)`
  and `ErrorResponse(message)` hold `None` when the nested element is absent.

Behaviour of the code that is easy to misread, kept as written:

- A 200 reply whose root is `SendEmailResponse` and that has a
  `SendEmailResult` element with no `MessageId` in it makes `deliver`
  return nil (`Ok(None)` here) rather than raise. Without `SendEmailResult`,
  the lookup `nil['MessageId']` raises `NoMethodError`, which the model
  does not cover (see "Left out").
- Missing keys raise `SES::Error`, and an empty sender raises
  `SES::ValidationError`; there is no separate configuration error class.
- A non-nil but empty sender name still gives `Source = " <from>"`. The
  initial default name is `""`, so this is what an email built without a
  name gets.
- List recipients use `Destination.toAddresses.member.N` (lowercase `t`).
  A single String recipient uses `Destination.ToAddresses.member.1`.
  `Mail.ListRecipients` and `Mail.SingleRecipient` prove that the two key
  families never meet.

## Model

| member | source | states |
|---|---|---|
| `RubyText.Decimal` | lib/ses/email.rb:159 | `num.to_s` is a non-empty string of decimal digits with no leading zero unless the number is 0; it is one digit exactly when the number is below 10 |
| `RubyText.DecimalRoundTrip` | lib/ses/email.rb:159 | reading the digits of `n.to_s` back gives `n` |
| `RubyText.DecimalInjective` | lib/ses/email.rb:159 | two counters render as the same string exactly when they are equal |
| `RubyText.Chomp` | lib/ses/client.rb:115 | `chomp` keeps a prefix of its input, dropping only a trailing `"\r\n"`, `"\n"` or `"\r"`; it drops something exactly when the input ends in `\n` or `\r`, and a trailing `"\r\n"` goes as a pair |
| `Params.ParamHash.Store` | lib/ses/client.rb:65-67 | `hash[key] = value` adds the key or overwrites its value; no other key changes |
| `Client.KeyCheck` | lib/ses/client.rb:88-98 | the key check passes exactly when both keys are non-nil and non-empty; every failure is an `SES::Error`; it names the access key whenever that one is blank, and otherwise names the secret key when that one is blank |
| `Client.VerifyKeys` | lib/ses/client.rb:88-98 | the loop over `[:access_key, :secret_key]` gives the ordered check: an `SES::Error` naming the access key when it is nil or empty, otherwise naming the secret key when that is nil or empty; it passes exactly when both are non-empty |
| `Client.MacValue` | lib/ses/client.rb:109-115 | the signature proper is the Base64 text of the HMAC with at most one trailing line ending (`"\n"`, `"\r"` or `"\r\n"`) removed |
| `Client.Signature` | lib/ses/client.rb:108-119 | the header starts with `AWS3-HTTPS AWSAccessKey=` followed by the access key (nil renders empty) and ends with `, Algorithm=HmacSHA256` |
| `Client.SignatureReadsOnlyKeys` | lib/ses/client.rb:108-119 | the signature depends only on the access key, the secret key and the time string, not on the API version |
| `Client.SignatureCarriesMac` | lib/ses/client.rb:115-118 | under one access key, two headers are equal exactly when their chomped Base64 HMAC values are equal |
| `Client.Headers` | lib/ses/client.rb:69-74 | exactly the two headers `X-Amzn-Authorization` and `Date`; `Date` is the time string, and the authorization value is the signature of that same string |
| `Client.SignedBody` | lib/ses/client.rb:65-67 | `Timestamp` holds the URL time, `Version` the configured version and `AWSAccessKeyId` the access key, overwriting earlier values; every other key keeps its value and no other key is added |
| `Client.SignedPost` | lib/ses/client.rb:58-77 | the keys are checked first: if one is missing, the error is returned, the caller's hash is unchanged and no request exists; otherwise the caller's hash becomes `SignedBody` of its old value in place, and that hash is posted with `Headers` of the signature time |
| `Mail.Initialized` | lib/ses/email.rb:106-114 | sender and sender name fall back on the defaults when absent; `html` is true only when `true` is given; `charset` is the given one, else `UTF-8`; recipient, subject and body are stored unchanged |
| `Mail.Email.constructor` | lib/ses/email.rb:106-114 | the new email's fields are `Initialized(options, defaults)` |
| `Mail.Validate` | lib/ses/email.rb:197-212 | passes exactly when the sender is non-nil, non-empty and the recipient is an Array or a String; a blank sender is reported first; every failure is a `ValidationError` with the source's message, naming the recipient's class |
| `Mail.Source` | lib/ses/email.rb:133-137 | the bare sender when the name is nil; otherwise the name, `" <"`, the sender and `">"`, in that order, even for an empty name |
| `Mail.DefaultNameSource` | lib/ses/email.rb:106-137 | with the initial defaults and no name given, `Source` is `" <" + from + ">"` |
| `Mail.MemberKeyInjective` | lib/ses/email.rb:159 | two member keys with one prefix are equal exactly when their numbers are |
| `Mail.NonBlank` | lib/ses/email.rb:157-158 | the entries the loop keeps, in order: those neither nil nor empty; its properties are stated by `NonBlankEntries`, `NonBlankPrefix`, `NonBlankRank` and `NonBlankStep` |
| `Mail.Members` | lib/ses/email.rb:155-162 | the member map the loop builds, the n-th kept address under key n; its properties are stated by `MembersKeys`, `MembersAt` and `MembersSnoc` |
| `Mail.NonBlankEntries` | lib/ses/email.rb:157-163 | the kept recipients are at most as many as the entries; each is a non-empty string that occurs in the list |
| `Mail.NonBlankPrefix` | lib/ses/email.rb:157-163 | the entries kept from a prefix of the list are a prefix of those kept from the whole list, so the order is preserved |
| `Mail.NonBlankRank` | lib/ses/email.rb:157-163 | a non-blank entry at position `j` is kept at index r, where r is the number of non-blank entries before it |
| `Mail.MembersKeys` | lib/ses/email.rb:155-162 | the member keys are exactly those numbered 1 to the number of kept addresses |
| `Mail.MembersAt` | lib/ses/email.rb:155-162 | member key `k` holds the `k`-th kept address |
| `Mail.FixedFields` | lib/ses/email.rb:139-144 | the initial hash has exactly the keys `Action`, `Source`, `Message.Subject.Data` and `Message.Subject.Charset` |
| `Mail.BodyPair` | lib/ses/email.rb:146-152 | the body fields are exactly the Html pair when `html` is true, otherwise exactly the Text pair |
| `Mail.Destinations` | lib/ses/email.rb:154-166 | a String recipient gives exactly the one key `Destination.ToAddresses.member.1` |
| `Mail.RequestParams` | lib/ses/email.rb:139-166 | the keys of the POST fields are the fixed fields, the body pair and the destination keys, and nothing else |
| `Mail.ParamsUnsigned` | lib/ses/email.rb:139-166 | `deliver` itself sets none of `Timestamp`, `Version` and `AWSAccessKeyId`; only `signed_post` adds them |
| `Mail.NotDestination` | lib/ses/email.rb:139-166 | no destination key is as short as a fixed field name, so destinations never overwrite the fixed or body fields |
| `Mail.ParamsFixed` | lib/ses/email.rb:139-144 | the request holds `Action=SendEmail`, the `Source`, the subject and the subject charset |
| `Mail.ParamsBody` | lib/ses/email.rb:146-152 | exactly one body pair: the Html pair when `html` is true, the Text pair otherwise; the data is the body and the charset is `charset` |
| `Mail.MemberKeyNotFixed` | lib/ses/email.rb:139-159 | a list member key is never a fixed or body field name |
| `Mail.ListRecipientAt` | lib/ses/email.rb:154-163 | for an Array, the `k`-th kept entry is stored under `Destination.toAddresses.member.k` |
| `Mail.ListRecipientBeyond` | lib/ses/email.rb:154-163 | for an Array, there is no member key numbered 0 and none numbered above the count of kept entries |
| `Mail.ListRecipientNoSingleKey` | lib/ses/email.rb:154-166 | for an Array, the capital-`T` key `Destination.ToAddresses.member.1` is absent |
| `Mail.ListRecipients` | lib/ses/email.rb:154-163 | for an Array, member key `k` is present exactly for `k` from 1 to the number of non-blank entries (no key 0, no gap, none beyond); key `k` holds the `k`-th non-blank entry; blank entries get no key; the capital-`T` key is absent |
| `Mail.ListRecipientKeys` | lib/ses/email.rb:139-163 | for an Array, the request's keys are exactly the four fixed fields, the one body pair and the member keys 1 to the number of non-blank entries |
| `Mail.ListEntryKey` | lib/ses/email.rb:154-163 | a non-blank entry at position `j` is stored under the key numbered one more than the count of non-blank entries before it |
| `Mail.SingleRecipient` | lib/ses/email.rb:164-166 | for a String, `Destination.ToAddresses.member.1` holds it unchanged and no lowercase-`t` member key is present |
| `Mail.SingleRecipientKeys` | lib/ses/email.rb:139-166 | for a String, the request's keys are exactly the four fixed fields, the one body pair and `Destination.ToAddresses.member.1`, so there is exactly one destination key |
| `Mail.Interpret` | lib/ses/email.rb:171-186 | a message id results exactly when the status is 200 and the root is `SendEmailResponse`, and it is that reply's `MessageId`; a non-200 `ErrorResponse` raises `Failed to send the Email: ` plus its message; every other pairing raises `Failed to extract the message ID, raw response: ` plus the raw body |
| `Mail.AddBodyPair` | lib/ses/email.rb:146-152 | adds, in place, exactly the one body pair the specification names (Html when `html` is true, Text otherwise) and changes nothing else |
| `Mail.NonBlankStep` | lib/ses/email.rb:157-158 | one more list entry is kept exactly when it is neither nil nor empty |
| `Mail.MembersSnoc` | lib/ses/email.rb:158-161 | keeping one more address adds exactly the next numbered member key, holding that address |
| `Mail.MembersStep` | lib/ses/email.rb:158-161 | storing the next address under key `num` on top of earlier fields gives the member map of one more kept address |
| `Mail.AddListRecipients` | lib/ses/email.rb:154-163 | the counter loop adds exactly the numbered member keys of the kept entries to the hash, in place, and changes nothing else |
| `Mail.NewRequestFields` | lib/ses/email.rb:133-166 | the hash that is built step by step equals the specification `RequestParams` of the email |
| `Mail.Email.Deliver` | lib/ses/email.rb:130-187 | an invalid email returns the validation error and posts nothing; missing keys return the key error and post nothing; otherwise exactly one request is posted, to `/`, with the signed headers and `SignedBody(RequestParams(fields))`, and the result is `Interpret` of the transport's reply |
| `Scenarios.RejectedEmails` | spec/ses/email.rb:48-61 | no sender, no recipient and an Integer recipient are all rejected with `ValidationError` |
| `Scenarios.ThreeRecipientsOneBlank` | lib/ses/email.rb:154-163 | `[a, "", b]` gives member keys 1 = a and 2 = b, no key 3 and no capital-`T` key |
| `Scenarios.ReplyExamples` | spec/ses/email.rb:63-127 | a 200 success reply yields its id; a 400 error reply raises `Failed to send the Email: Something went wrong` |
| `Scenarios.KeyExamples` | spec/ses/client.rb:9-25 | no keys names the access key, only the access key names the secret key, and both keys pass |
| `Scenarios.SignatureExample` | spec/ses/client.rb:27-43 | with keys `access` and `secret` the header is the exact template around the chomped Base64 HMAC of the time |

## Left out

- HTTParty transport, base URI, XML format and form encoding (lib/ses/client.rb:19-23, 77). These are network I/O. The transport is a function parameter, and `Deliver` returns the request it would post.
- XML parsing behind `parsed_response`. The reply is given already parsed.
- The `NoMethodError` Ruby raises on a malformed nested reply is not modelled. One example is a 200 `SendEmailResponse` without `SendEmailResult`; the model gives `Ok(None)` there.
- A parsed reply that is not a Hash is not modelled either.
- `OpenSSL::HMAC.digest` and `Base64.encode64` are foreign library calls. They are uninterpreted function parameters, so the signature's bytes are not computed.
- `Time.now` and the two `strftime` formats are left out because they read the clock. The time strings are inputs, so the local-time-with-literal-`Z` quirk of the URL timestamp is not captured.
- The global `OPTIONS` hashes and their mutation between calls are left out. They are explicit, immutable parameters.
- `Client.Signature`: requires a non-nil secret key. With a nil secret, OpenSSL raises a `TypeError`, which is not modelled. `SignedPost` reaches it only after the key check.
- List entries are modelled as nil or a String. The loop block takes two parameters (`|value, index|`), so an Array entry is splatted and only its first element is tested and stored; `[nil, "a"]` is skipped. Symbols and Hashes answer `empty?` and would be stored as they are. An entry whose tested value has no `empty?`, such as an Integer or `[10]`, makes the loop raise `NoMethodError`. None of these cases is modelled.
- The `:html` option is modelled as true, false or absent. Another truthy value (for example the string `"true"`) would select the Text body in the source.
- `Email` fields are typed more narrowly than Ruby allows. `charset` and `html` cannot be set to nil afterwards through their accessors.
- Default arguments of `signed_post(uri = '/', body = {})` are left out; `Deliver` always passes `/` and its own hash.
- lib/ses/errors.rb is represented only by the `Errors.Failure` datatype.
