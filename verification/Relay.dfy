/** Entry and middle relays on an established circuit: peel a forward layer, add a backward one. */
module Relay {
  import opened Common
  import opened Cells
  import opened Crypto
  import opened Pipeline

  datatype Role = Entry | Middle

  datatype RelayState = RelayState(role: Role, cipher: Option<Pair>, nextHop: bool)

  datatype RelayError = NotEstablished | CellTooShort | UnexpectedCommand(command: Command)

  datatype RelayAction =
    | Forwarded(cell: Message)   // written to the next hop
    | Reply(cell: Message)       // returned, to be written to the previous hop
    | Quiet
    | Failed(error: RelayError)  // the connection loop stops

  /** Everything but the two messages that build the circuit (module Telescope). */
  predicate Established(s: RelayState, msg: Message) {
    msg.command != Create && (msg.command == Extend ==> s.nextHop)
  }

  /** One message from the previous hop. Without a next hop the layer is spent and the cell is lost. */
  function ForwardStep(x: Circ, s: RelayState, msg: Message): (RelayState, RelayAction)
    requires Established(s, msg)
  {
    match msg.command
    case Begin | Data | End | Connected | Extend =>
      if s.cipher.None? then (s, Failed(NotEstablished)) else
      var c := s.cipher.value.forward;
      var s' := s.(cipher := Some(s.cipher.value.(forward := Skip(c, |msg.data|))));
      if s.nextHop then (s', Forwarded(msg.(data := Layer(x.mask, c, msg.data)))) else (s', Quiet)
    case Extended =>
      if s.role == Entry then (s, Failed(UnexpectedCommand(Extended)))
      else if |msg.data| < 32 then (s, Failed(CellTooShort))
      else (s, Reply(msg))
    case Destroy => (s.(cipher := None, nextHop := false), Quiet)
    case Padding => (s, Quiet)
    case _ => (s, Failed(UnexpectedCommand(msg.command)))
  }

  /** What never goes on to the next hop: EXTENDED from the client's side is sent back unchanged by a middle relay,
      if it is long enough, and is an error otherwise; CREATED is an error. */
  lemma {:induction false} StrayCells(x: Circ, s: RelayState, msg: Message)
    requires msg.command == Extended || msg.command == Created
    ensures var (s', act) := ForwardStep(x, s, msg);
            && s' == s && !act.Forwarded? && !act.Quiet?
            && (act == Reply(msg) <==> msg.command == Extended && s.role == Middle && |msg.data| >= 32)
            && (act == Failed(CellTooShort) <==> msg.command == Extended && s.role == Middle && |msg.data| < 32)
  {
  }

  /** One message from the next hop, as the background reader handles it. The entry relay passes a
      DESTROY on as a fresh one; a middle relay puts a layer on its empty payload. */
  function BackwardStep(x: Circ, s: RelayState, msg: Message): (RelayState, RelayAction) {
    if s.role == Entry && msg.command == Destroy then (s, Reply(CircuitMessage(x.id, Destroy, [])))
    else if s.cipher.None? then (s, Failed(NotEstablished))
    else
      var c := s.cipher.value.backward;
      (s.(cipher := Some(s.cipher.value.(backward := Skip(c, |msg.data|)))),
       Reply(msg.(data := Layer(x.mask, c, msg.data))))
  }

  method ToArray(s: seq<byte>) returns (a: array<byte>)
    ensures fresh(a) && a[..] == s
  {
    a := new byte[|s|](i requires 0 <= i < |s| => s[i]);
  }

  class RelayHandler {
    const x: Circ
    const role: Role
    var cipher: CipherPair?
    var nextHop: bool
    var nextWrite: seq<Message>  // what the write half of the next hop was given

    ghost predicate Valid()
      reads this, cipher
    {
      cipher != null ==> cipher.mask == x.mask
    }

    function State(): RelayState
      reads this, cipher
    {
      RelayState(role, if cipher == null then None else Some(cipher.Value()), nextHop)
    }

    constructor (x: Circ, role: Role)
      ensures Valid() && this.x == x && State() == RelayState(role, None, false) && nextWrite == []
    {
      this.x := x;
      this.role := role;
      cipher := null;
      nextHop := false;
      nextWrite := [];
    }

    /** A session key was agreed: a fresh cipher pair. */
    method Activate(key: SessionKey)
      modifies this`cipher
      ensures Valid() && State() == old(State()).(cipher := Some(FreshPair(key)))
    {
      cipher := new CipherPair(x.mask, key);
    }

    method Close()
      modifies this`cipher, this`nextHop
      ensures Valid() && State() == old(State()).(cipher := None, nextHop := false)
    {
      cipher := null;
      nextHop := false;
    }

    method HandleMessage(msg: Message) returns (action: RelayAction)
      requires Valid() && Established(State(), msg)
      modifies this, cipher
      ensures Valid() && (State(), action) == ForwardStep(x, old(State()), msg)
      ensures nextWrite == if action.Forwarded? then old(nextWrite) + [action.cell] else old(nextWrite)
    {
      match msg.command {
        case Begin | Data | End | Connected | Extend =>
          if cipher == null {
            return Failed(NotEstablished);
          }
          var decrypted := ToArray(msg.data);
          cipher.ApplyForward(decrypted);
          if nextHop {
            var on := msg.(data := decrypted[..]);
            nextWrite := nextWrite + [on];
            action := Forwarded(on);
          } else {
            action := Quiet;
          }
        case Extended =>
          if role == Entry {
            action := Failed(UnexpectedCommand(Extended));
          } else if |msg.data| < 32 {
            action := Failed(CellTooShort);
          } else {
            action := Reply(msg);
          }
        case Destroy =>
          Close();
          action := Quiet;
        case Padding =>
          action := Quiet;
        case _ =>
          action := Failed(UnexpectedCommand(msg.command));
      }
    }

    method HandleBackward(msg: Message) returns (action: RelayAction)
      requires Valid()
      modifies cipher
      ensures Valid() && (State(), action) == BackwardStep(x, old(State()), msg)
    {
      if role == Entry && msg.command == Destroy {
        return Reply(CircuitMessage(x.id, Destroy, []));
      }
      if cipher == null {
        return Failed(NotEstablished);
      }
      var encrypted := ToArray(msg.data);
      cipher.ApplyBackward(encrypted);
      action := Reply(msg.(data := encrypted[..]));
    }
  }
}
