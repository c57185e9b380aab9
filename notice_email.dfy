// The email helpers behind a Crummey notice: subjects, the provider tag,
// the salutation, the trustee contact sentence, and the mapping of the
// provider's answer into `{ success, messageId | error }`. The provider
// itself is a function the caller supplies.

module NoticeEmail {
  import opened Types
  import Seqs

  const DefaultFromEmail := "notices@yourdomain.com"
  const DefaultFromName := "Trust Notice System"
  const NoticeSubjectPrefix := "Notice of Right to Withdraw Funds - "
  const ReminderSubjectPrefix := "Reminder: Withdrawal Right Expires in "
  const ReminderSubjectMiddle := " Days - "
  const ContactLead := "To exercise your right to withdraw, please contact "
  const UnknownError := "Unknown error"

  /** The `FROM_EMAIL` and `FROM_NAME` environment variables. */
  datatype MailerConfig = MailerConfig(fromEmail: Option<string>, fromName: Option<string>)

  function FromHeader(cfg: MailerConfig): string
  {
    OrElse(cfg.fromName, DefaultFromName) + " <" + OrElse(cfg.fromEmail, DefaultFromEmail) + ">"
  }

  /** The template fields of a notice. Dates are kept as the store holds
      them (their `formatDate` rendering is not modelled), and the
      contribution date is not part of this model. */
  datatype NoticeEmailData = NoticeEmailData(
    trustName: string,
    trustDate: string,
    beneficiaryName: string,
    noticeDate: string,
    withdrawalAmount: real,
    withdrawalDeadline: string,
    trusteeName: string,
    trusteeEmail: string,
    trusteePhone: Option<string>,
    trusteeAddress: string,
    acknowledgmentUrl: string)

  datatype Tag = Tag(name: string, value: string)

  /** The message handed to the provider. The HTML and text bodies are
      generated from `template`, so two messages whose templates differ
      (another acknowledgment link, amount or date) are different messages;
      of the generated markup the model spells out only the salutation line
      and the trustee contact sentence. */
  datatype EmailRequest = EmailRequest(
    from: string,
    to: string,
    subject: string,
    tags: seq<Tag>,
    template: NoticeEmailData,
    salutation: string,
    contact: string)

  /** What the provider call produced: an answer carrying an error message
      or a message id, or a thrown value. */
  datatype ProviderOutcome =
    | Answered(error: Option<string>, messageId: Option<string>)
    | Threw(thrown: Thrown)

  datatype Thrown = ErrorInstance(message: string) | NonError

  /** `{ success, messageId?, error? }`. */
  datatype SendResult = SendResult(success: bool, messageId: Option<string>, error: Option<string>)

  /** The subject of a notice: the fixed lead followed by the trust name. */
  function NoticeSubject(trustName: string): (r: string)
    ensures |r| == |NoticeSubjectPrefix| + |trustName|
    ensures r[..|NoticeSubjectPrefix|] == NoticeSubjectPrefix
    ensures r[|NoticeSubjectPrefix|..] == trustName
  {
    NoticeSubjectPrefix + trustName
  }

  /** Different trusts get different notice subjects. */
  lemma NoticeSubjectInjective(a: string, b: string)
    requires NoticeSubject(a) == NoticeSubject(b)
    ensures a == b
  {
    assert a == NoticeSubject(a)[|NoticeSubjectPrefix|..];
  }

  predicate IsTagChar(c: char)
  {
    ('a' <= c <= 'z') || ('A' <= c <= 'Z') || ('0' <= c <= '9')
  }

  /** `s.replace(/[^a-zA-Z0-9]/g, '_')`. */
  function SanitizeTag(s: string): (r: string)
    ensures |r| == |s|
    ensures forall i :: 0 <= i < |s| ==> r[i] == if IsTagChar(s[i]) then s[i] else '_'
  {
    if s == [] then ""
    else [if IsTagChar(s[0]) then s[0] else '_'] + SanitizeTag(s[1..])
  }

  /** A sanitised tag holds only letters, digits and `_`, and sanitising it
      again changes nothing. */
  lemma SanitizeTagIdempotent(s: string)
    ensures forall i :: 0 <= i < |s| ==> IsTagChar(SanitizeTag(s)[i]) || SanitizeTag(s)[i] == '_'
    ensures SanitizeTag(SanitizeTag(s)) == SanitizeTag(s)
  {
  }

  /** `s.split(' ')`: the pieces between single spaces, the first one
      being the text before the first space. */
  function SplitOnSpace(s: string): (parts: seq<string>)
    ensures |parts| >= 1
    ensures forall i :: 0 <= i < |parts| ==> ' ' !in parts[i]
    ensures |parts[0]| <= |s| && parts[0] == s[..|parts[0]|]
    ensures |parts[0]| < |s| ==> s[|parts[0]|] == ' '
  {
    if s == [] then [""]
    else
      var rest := SplitOnSpace(s[1..]);
      if s[0] == ' ' then [""] + rest
      else [[s[0]] + rest[0]] + rest[1..]
  }

  /** Joining the pieces with single spaces gives back the string. */
  lemma {:induction false} SplitOnSpaceJoin(s: string)
    ensures Seqs.Join(SplitOnSpace(s), " ") == s
  {
    if s != [] {
      var rest := SplitOnSpace(s[1..]);
      SplitOnSpaceJoin(s[1..]);
      var parts := SplitOnSpace(s);
      if s[0] == ' ' {
        assert parts == [""] + rest;
        assert parts[1..] == rest;
        assert s == [' '] + s[1..];
      } else {
        assert parts == [[s[0]] + rest[0]] + rest[1..];
        assert parts[1..] == rest[1..];
        if |rest| > 1 {
          assert Seqs.Join(rest, " ") == rest[0] + " " + Seqs.Join(rest[1..], " ");
        }
        assert s == [s[0]] + s[1..];
      }
    }
  }

  /** `beneficiaryName.split(' ')[0]`: the text before the first space,
      the whole name when it has none, empty when it starts with one. */
  function FirstName(name: string): (r: string)
    ensures |r| <= |name| && name[..|r|] == r
    ensures ' ' !in r
    ensures |r| < |name| ==> name[|r|] == ' '
    ensures ' ' !in name ==> r == name
    ensures |name| > 0 && name[0] == ' ' ==> r == ""
  {
    SplitOnSpace(name)[0]
  }

  function Salutation(beneficiaryName: string): string
  {
    "Dear " + FirstName(beneficiaryName) + ","
  }

  /** `${phone ? `${lead}${phone}` : ''}`. */
  function PhoneSuffix(phone: Option<string>, lead: string): string
  {
    if Present(phone) then lead + phone.value else ""
  }

  /** The close of the notice's contact sentence, after the optional phone. */
  function ContactClosing(d: NoticeEmailData): string
  {
    " no later than " + d.withdrawalDeadline + "."
  }

  /** The contact sentence of the notice body. */
  function ContactSentence(d: NoticeEmailData): string
  {
    ContactLead + d.trusteeName + " at " + d.trusteeEmail + PhoneSuffix(d.trusteePhone, " or ") + ContactClosing(d)
  }

  /** The contact lines of the signature block and of the text body. */
  function SignatureContact(d: NoticeEmailData): string
  {
    d.trusteeEmail + PhoneSuffix(d.trusteePhone, "<br>")
  }

  function TextPhoneLine(d: NoticeEmailData): string
  {
    OrElse(d.trusteePhone, "")
  }

  /** The trustee's phone appears in the contact sentence, the signature
      and the text body exactly when it is non-empty. The contact sentence
      always ends with the deadline closing, which the phone, when shown,
      immediately precedes; the signature ends with the phone. */
  lemma PhoneShownOnlyWhenPresent(d: NoticeEmailData)
    ensures var bare := d.(trusteePhone := None);
            (ContactSentence(d) == ContactSentence(bare) <==> !Present(d.trusteePhone))
            && (SignatureContact(d) == SignatureContact(bare) <==> !Present(d.trusteePhone))
            && (TextPhoneLine(d) == "" <==> !Present(d.trusteePhone))
    ensures var s, c := ContactSentence(d), ContactClosing(d);
            |c| <= |s| && s[|s| - |c|..] == c
    ensures Present(d.trusteePhone) ==>
              var p, s, c := d.trusteePhone.value, ContactSentence(d), ContactClosing(d);
              && |p| + |c| <= |s|
              && s[|s| - |c| - |p|..|s| - |c|] == p
              && SignatureContact(d)[|SignatureContact(d)| - |p|..] == p
              && TextPhoneLine(d) == p
  {
    var bare := d.(trusteePhone := None);
    if Present(d.trusteePhone) {
      assert |ContactSentence(d)| > |ContactSentence(bare)|;
      assert |SignatureContact(d)| > |SignatureContact(bare)|;
    }
  }

  /** The mapping of `sendNoticeEmail`/`sendReminderEmail`: an answer
      without an error is a success carrying the message id; an error
      answer, or a thrown value, is a failure carrying its message, and a
      thrown value that is not an `Error` reads "Unknown error". */
  function MapProviderOutcome(o: ProviderOutcome): (r: SendResult)
    ensures r.success <==> o.Answered? && o.error.None?
    ensures r.success ==> r.messageId == o.messageId && r.error.None?
    ensures !r.success ==> r.messageId.None? && r.error.Some?
    ensures o.Answered? && o.error.Some? ==> r.error == o.error
    ensures o == Threw(NonError) ==> r.error == Some(UnknownError)
    ensures o.Threw? && o.thrown.ErrorInstance? ==> r.error == Some(o.thrown.message)
  {
    match o
    case Answered(err, id) =>
      if err.Some? then SendResult(false, None, err) else SendResult(true, id, None)
    case Threw(t) =>
      SendResult(false, None, Some(if t.ErrorInstance? then t.message else UnknownError))
  }

  /** The message `sendNoticeEmail` hands to the provider: addressed to
      `beneficiaryName`, under the notice subject, tagged as a Crummey
      notice of the sanitised trust name, its bodies generated from `d`. */
  function NoticeRequest(cfg: MailerConfig, d: NoticeEmailData): (r: EmailRequest)
    ensures r.from == FromHeader(cfg) && r.to == d.beneficiaryName
    ensures |r.subject| == |NoticeSubjectPrefix| + |d.trustName|
    ensures r.subject[..|NoticeSubjectPrefix|] == NoticeSubjectPrefix
    ensures r.subject[|NoticeSubjectPrefix|..] == d.trustName
    ensures |r.tags| == 2 && r.tags[0] == Tag("type", "crummey_notice")
    ensures r.tags[1].value == SanitizeTag(d.trustName)
    ensures r.template == d
    ensures r.salutation == "Dear " + FirstName(d.beneficiaryName) + ","
  {
    EmailRequest(
      from := FromHeader(cfg),
      to := d.beneficiaryName,
      subject := NoticeSubject(d.trustName),
      tags := [Tag("type", "crummey_notice"), Tag("trust", SanitizeTag(d.trustName))],
      template := d,
      salutation := Salutation(d.beneficiaryName),
      contact := ContactSentence(d))
  }

  /** `sendNoticeEmail`, with the provider as a parameter: the result
      reports the provider's answer to the notice message. */
  function SendNoticeEmail(cfg: MailerConfig, d: NoticeEmailData, provider: EmailRequest -> ProviderOutcome)
    : (r: SendResult)
    ensures var o := provider(NoticeRequest(cfg, d));
            && (r.success <==> o.Answered? && o.error.None?)
            && (r.success ==> r.messageId == o.messageId)
            && (!r.success ==> r.error.Some?)
  {
    MapProviderOutcome(provider(NoticeRequest(cfg, d)))
  }

  // ----- reminder -----

  function DigitChar(d: nat): char
    requires d < 10
  {
    ('0' as int + d) as char
  }

  predicate IsDigit(c: char)
  {
    '0' <= c <= '9'
  }

  /** The decimal spelling of a non-negative integer. */
  function NatToDecimal(n: nat): (r: string)
    ensures |r| >= 1
    ensures forall i :: 0 <= i < |r| ==> IsDigit(r[i])
    decreases n
  {
    if n < 10 then [DigitChar(n)] else NatToDecimal(n / 10) + [DigitChar(n % 10)]
  }

  /** `${n}` for an integer `n`. */
  function IntToDecimal(n: int): string
  {
    if n < 0 then "-" + NatToDecimal(-n) else NatToDecimal(n)
  }

  function ParseDigits(s: string): nat
    requires forall i :: 0 <= i < |s| ==> IsDigit(s[i])
  {
    if s == [] then 0
    else
      assert IsDigit(s[|s| - 1]);
      ParseDigits(s[..|s| - 1]) * 10 + (s[|s| - 1] as int - '0' as int)
  }

  function ParseInt(s: string): int
  {
    if |s| > 0 && s[0] == '-' && forall i :: 1 <= i < |s| ==> IsDigit(s[i]) then -(ParseDigits(s[1..]) as int)
    else if forall i :: 0 <= i < |s| ==> IsDigit(s[i]) then ParseDigits(s)
    else 0
  }

  lemma {:induction false} NatToDecimalRoundTrip(n: nat)
    ensures ParseDigits(NatToDecimal(n)) == n
    decreases n
  {
    if n >= 10 {
      NatToDecimalRoundTrip(n / 10);
      var s := NatToDecimal(n);
      assert s[..|s| - 1] == NatToDecimal(n / 10);
    }
  }

  /** The decimal spelling reads back as the same integer. */
  lemma IntToDecimalRoundTrip(n: int)
    ensures ParseInt(IntToDecimal(n)) == n
  {
    if n < 0 {
      NatToDecimalRoundTrip(-n);
      assert IntToDecimal(n)[1..] == NatToDecimal(-n);
    } else {
      NatToDecimalRoundTrip(n);
    }
  }

  function ReminderSubject(daysRemaining: int, trustName: string): string
  {
    ReminderSubjectPrefix + IntToDecimal(daysRemaining) + ReminderSubjectMiddle + trustName
  }

  /** The reminder subject carries the number of days left, readable back
      from it, and ends with the trust name. */
  lemma ReminderSubjectEmbeds(daysRemaining: int, trustName: string)
    ensures var s := ReminderSubject(daysRemaining, trustName);
            var k := |ReminderSubjectPrefix| + |IntToDecimal(daysRemaining)|;
            && |s| == k + |ReminderSubjectMiddle| + |trustName|
            && s[..|ReminderSubjectPrefix|] == ReminderSubjectPrefix
            && ParseInt(s[|ReminderSubjectPrefix|..k]) == daysRemaining
            && s[k + |ReminderSubjectMiddle|..] == trustName
  {
    var s := ReminderSubject(daysRemaining, trustName);
    var k := |ReminderSubjectPrefix| + |IntToDecimal(daysRemaining)|;
    assert s[|ReminderSubjectPrefix|..k] == IntToDecimal(daysRemaining);
    IntToDecimalRoundTrip(daysRemaining);
  }

  /** The message `sendReminderEmail` hands to the provider: no tags, and
      a contact sentence without the phone. */
  function ReminderRequest(cfg: MailerConfig, d: NoticeEmailData, daysRemaining: int): (r: EmailRequest)
    ensures r.to == d.beneficiaryName && r.tags == [] && r.template == d
    ensures r.subject == ReminderSubject(daysRemaining, d.trustName)
  {
    EmailRequest(
      from := FromHeader(cfg),
      to := d.beneficiaryName,
      subject := ReminderSubject(daysRemaining, d.trustName),
      tags := [],
      template := d,
      salutation := Salutation(d.beneficiaryName),
      contact := "If you have questions about exercising your withdrawal right, contact "
                 + d.trusteeName + " at " + d.trusteeEmail + ".")
  }

  /** A reminder goes to the same address, with the same greeting, as the
      notice built from the same data, carries no tags, and its contact
      sentence names no phone. */
  lemma ReminderRequestShape(cfg: MailerConfig, d: NoticeEmailData, daysRemaining: int)
    ensures var r := ReminderRequest(cfg, d, daysRemaining);
            && r.to == NoticeRequest(cfg, d).to == d.beneficiaryName
            && r.from == NoticeRequest(cfg, d).from
            && r.salutation == NoticeRequest(cfg, d).salutation
            && r.tags == []
            && r.contact == ReminderRequest(cfg, d.(trusteePhone := None), daysRemaining).contact
  {
  }

  /** `sendReminderEmail`, with the provider as a parameter: the result
      reports the provider's answer to the reminder message. */
  function SendReminderEmail(cfg: MailerConfig, d: NoticeEmailData, daysRemaining: int,
                             provider: EmailRequest -> ProviderOutcome): (r: SendResult)
    ensures var o := provider(ReminderRequest(cfg, d, daysRemaining));
            && (r.success <==> o.Answered? && o.error.None?)
            && (r.success ==> r.messageId == o.messageId)
            && (!r.success ==> r.error.Some?)
  {
    MapProviderOutcome(provider(ReminderRequest(cfg, d, daysRemaining)))
  }
}
