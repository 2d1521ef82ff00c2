/** The runtime's driver for forwarding, and its store for the LSA sequence number. */
module RuntimeComponent {
  import opened MeshTypes
  import opened Packets
  import opened PacketCodec
  import opened Forwarding
  import opened ForwardInvariant
  import opened ForwardComponent
  import opened RuntimeModel

  /** A persisted counter that refuses to move backward. */
  class SeqStore {
    var stored: nat

    constructor (initial: nat)
      ensures stored == initial
    {
      stored := initial;
    }

    method Persist(number: nat) returns (ok: bool)
      modifies this
      ensures ok <==> old(stored) <= number
      ensures stored == if ok then number else old(stored)
      ensures old(stored) <= stored
    {
      if number < stored {
        return false;
      }
      stored := number;
      return true;
    }
  }

  class Driver {
    const forwarder: Forwarder
    var up: set<LinkId>
    var seen: set<LinkId>
    var inFlight: map<LinkId, seq<nat>>

    function View(): Runtime
      reads this, forwarder
    {
      Runtime(forwarder.View(), up, seen, inFlight)
    }

    constructor (forwarder: Forwarder)
      requires forwarder.View() == NewForwarder(forwarder.me, forwarder.routes)
      ensures this.forwarder == forwarder
      ensures View() == Runtime(forwarder.View(), {}, {}, map[]) && RuntimeOk(View())
    {
      this.forwarder := forwarder;
      up, seen, inFlight := {}, {}, map[];
    }

    /** Hands each encodable packet to its link, in order. */
    method ExecuteForward(actions: seq<ForwardAction>)
      modifies this
      ensures View() == Execute(old(View()), actions)
    {
      var i := 0;
      while i < |actions|
        invariant 0 <= i <= |actions|
        invariant Execute(View(), actions[i..]) == Execute(old(View()), actions)
      {
        var a := actions[i];
        assert actions[i..][0] == a && actions[i..][1..] == actions[i + 1..];
        if a.Transmit? {
          var encoded := EncodePacket(a.packet);
          if encoded.Ok? && a.link in up {
            inFlight := inFlight[a.link := (if a.link in inFlight then inFlight[a.link] else []) + [|encoded.value|]];
          }
        }
        i := i + 1;
      }
    }

    method Replenish(now: Time, link: LinkId, bytes: nat) returns (actions: seq<ForwardAction>)
      requires FwdOk(forwarder.View()) && |forwarder.pending| < GENERATIONS
      modifies forwarder
      ensures Did(forwarder.View(), actions, RuntimeModel.Replenish(old(forwarder.View()), now, link, bytes))
    {
      actions := forwarder.Handle(now, LinkCredit(link, bytes));
      var more := forwarder.Handle(now, LinkWritable(link));
      actions := actions + more;
    }

    ghost predicate Ready()
      reads this, forwarder
    {
      FwdOk(forwarder.View()) && |forwarder.pending| < GENERATIONS
    }

    /** A new link gets one maximal frame of credit and permission to write. */
    method OnUp(now: Time, link: LinkId)
      requires Ready()
      modifies this, forwarder
      ensures View() == RuntimeModel.OnUp(old(View()), now, link)
    {
      var actions := Replenish(now, link, MAX_PAYLOAD_LEN);
      up, seen := up + {link}, seen + {link};
      ExecuteForward(actions);
    }

    /** A sent frame gives back its bytes and the permission. */
    method OnSent(now: Time, link: LinkId)
      requires Ready() && InFlight(View(), link) != []
      modifies this, forwarder
      ensures View() == RuntimeModel.OnSent(old(View()), now, link)
    {
      var bytes := inFlight[link][0];
      inFlight := inFlight[link := inFlight[link][1..]];
      var actions := Replenish(now, link, bytes);
      ExecuteForward(actions);
    }

    /** A link to a peer without a configured cost is closed again. */
    method OnRefused(link: LinkId)
      modifies this
      ensures View() == RuntimeModel.OnRefused(old(View()), link)
    {
      seen := seen + {link};
    }

    method OnDown(now: Time, link: LinkId)
      requires Ready()
      modifies this, forwarder
      ensures View() == RuntimeModel.OnDown(old(View()), now, link)
    {
      var actions := forwarder.Handle(now, ForwardEvent.LinkDown(link));
      up, inFlight := up - {link}, inFlight - {link};
      ExecuteForward(actions);
    }

    method OnOther(now: Time, event: ForwardEvent)
      requires Ready() && EventFine(event)
      modifies this, forwarder
      ensures View() == RuntimeModel.OnOther(old(View()), now, event)
    {
      var actions := forwarder.Handle(now, event);
      ExecuteForward(actions);
    }

    /** Reacts to one input; the credit books of every link stay balanced. */
    method Handle(now: Time, input: Input)
      requires RuntimeOk(View()) && Possible(View(), input) && |forwarder.pending| < GENERATIONS
      modifies this, forwarder
      ensures View() == React(old(View()), now, input) && RuntimeOk(View())
    {
      ReactOk(View(), now, input);
      match input
      case Up(link) => OnUp(now, link);
      case SentReport(link) => OnSent(now, link);
      case Refused(link) => OnRefused(link);
      case DownReport(link) => OnDown(now, link);
      case Other(event) => OnOther(now, event);
    }
  }
}
