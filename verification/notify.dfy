/**
 Which notification channels carry an alert message (SHM/monitor.py lines
 60-91). Whether a command is on the PATH and whether invoking it raised are
 inputs; the subprocess and SMTP calls themselves are not modelled.
 */
module Notify {
  import opened Config

  /** Where `notify_terminal` puts the message. */
  datatype TerminalChannel = Wall | Stdout

  /** A delivery `notify_email` attempts, in the order it attempts them. */
  datatype EmailChannel = MailCommand | SmtpRelay

  /** Which channel, if any, carried the e-mail. */
  datatype Delivery = NotSent | ViaMail | ViaSmtp

  /** `notify_terminal`: broadcast with `wall` when it is installed and its
      invocation does not raise, otherwise print to standard output. */
  function TerminalChannelFor(wallOnPath: bool, wallRaises: bool): (ch: TerminalChannel)
    ensures ch == Wall <==> wallOnPath && !wallRaises
  {
    if wallOnPath then (if wallRaises then Stdout else Wall) else Stdout
  }

  /** The deliveries `notify_email` tries, in order. */
  function EmailAttempts(c: Config, mailOnPath: bool, mailRaises: bool): (tries: seq<EmailChannel>)
    ensures |tries| <= 2
    ensures c.emailTo == [] ==> tries == []
    ensures MailCommand in tries <==> c.emailTo != [] && mailOnPath
    ensures SmtpRelay in tries <==> c.emailTo != [] && !(mailOnPath && !mailRaises) && c.smtpHost != []
    ensures |tries| == 2 ==> tries == [MailCommand, SmtpRelay]
  {
    if c.emailTo == [] then []
    else
      var viaMail := if mailOnPath then [MailCommand] else [];
      var mailDelivered := mailOnPath && !mailRaises;
      var viaSmtp := if !mailDelivered && c.smtpHost != [] then [SmtpRelay] else [];
      viaMail + viaSmtp
  }

  /** The decision `notify_email` makes: nothing without a recipient; the
      `mail` command when installed and not raising; otherwise SMTP when a
      host is configured. */
  function EmailDelivery(c: Config, mailOnPath: bool, mailRaises: bool): (d: Delivery)
    ensures c.emailTo == [] ==> d == NotSent
    ensures d == ViaMail <==> c.emailTo != [] && mailOnPath && !mailRaises
    ensures d == ViaSmtp <==> c.emailTo != [] && (!mailOnPath || mailRaises) && c.smtpHost != []
    ensures d == NotSent <==> c.emailTo == [] || ((!mailOnPath || mailRaises) && c.smtpHost == [])
  {
    if c.emailTo == [] then NotSent
    else if mailOnPath && !mailRaises then ViaMail
    else if c.smtpHost != [] then ViaSmtp
    else NotSent
  }

  /** The delivery is the last attempt, unless that attempt was the `mail`
      command and it raised; SMTP is tried only after `mail` did not deliver. */
  lemma DeliveryIsLastSuccessfulAttempt(c: Config, mailOnPath: bool, mailRaises: bool)
    ensures var tries := EmailAttempts(c, mailOnPath, mailRaises);
            var d := EmailDelivery(c, mailOnPath, mailRaises);
            && (d == ViaSmtp <==> SmtpRelay in tries)
            && (d == ViaMail <==> MailCommand in tries && !mailRaises)
            && (d == NotSent <==> tries == [] || (tries == [MailCommand] && mailRaises))
  {
  }
}
