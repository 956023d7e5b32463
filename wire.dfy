/** The text protocol every game reads from its UDP socket: a datagram holding
    "<class> <intensity>", decoded as UTF-8 and split at single spaces. */
module Wire {
  import opened Common

  /** One piece of the split text: a literal float() accepts that denotes a finite
      number, with that number as an exact real, or a piece float() rejects with
      ValueError. The literals "nan", "inf" and ones that overflow to infinity are
      not represented. */
  datatype Token = Number(value: real) | Garbage

  /** A received datagram. Undecodable: the bytes are not UTF-8. Text(tokens): the
      text split at ' '; Text([]) stands for the empty text, since a non-empty text
      always splits into at least one piece. */
  datatype Datagram = Undecodable | Text(tokens: seq<Token>)

  /** The result of one non-blocking read: no datagram was waiting, or one was. */
  datatype Received = Nothing | Got(datagram: Datagram)

  /** float(data.split(' ')[i]), or None where it raises (IndexError, ValueError). */
  function Field(tokens: seq<Token>, i: nat): Option<real>
  {
    if i < |tokens| && tokens[i].Number? then Some(tokens[i].value) else None
  }

  /** The class read by the games that tolerate every failure: None when nothing
      arrived, the text is undecodable or empty, or its first piece is not a number. */
  function LeadingClass(received: Received): Option<real>
  {
    match received
    case Nothing => None
    case Got(Undecodable) => None
    case Got(Text(tokens)) => Field(tokens, 0)
  }
}
