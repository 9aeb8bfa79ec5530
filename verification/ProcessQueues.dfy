/** Counters, deque and idle clock of one process queue: ProcessQueueImpl.cpp and ProcessQueueImpl.h. */
module ProcessQueues {
  import opened Base
  import opened Modular

  /** Bodies are smaller than 4 GiB, so that their length fits the 32 bits of bodyLength(). */
  type BodySize = n: nat | n < UINT32_MODULUS

  datatype Message = Message(id: nat, bodySize: BodySize)

  /** MQMessage::bodyLength(), which the broadcast drainer releases: the body size cut to 32 bits. */
  function BodyLength(m: Message): (n: nat)
    ensures n == m.bodySize
  {
    m.bodySize % UINT32_MODULUS
  }

  /** Widths of the two atomic counters. */
  const QUANTITY_MODULUS: nat := UINT32_MODULUS
  const MEMORY_MODULUS: nat := UINT64_MODULUS

  /** MixAll::PROCESS_QUEUE_EXPIRATION_THRESHOLD_, in milliseconds. */
  const EXPIRATION_THRESHOLD: nat := 120_000

  function Bytes(messages: seq<Message>): (n: nat) {
    if messages == [] then 0 else Bytes(messages[..|messages| - 1]) + messages[|messages| - 1].bodySize
  }

  lemma {:induction false} BytesConcat(a: seq<Message>, b: seq<Message>)
    ensures Bytes(a + b) == Bytes(a) + Bytes(b)
  {
    if b == [] {
      assert a + b == a;
    } else {
      BytesConcat(a, b[..|b| - 1]);
      assert (a + b)[..|a + b| - 1] == a + b[..|b| - 1];
    }
  }

  lemma BytesHead(a: seq<Message>)
    requires a != []
    ensures Bytes(a) == a[0].bodySize + Bytes(a[1..])
  {
    assert a == [a[0]] + a[1..];
    assert [a[0]][..0] == [];
    BytesConcat([a[0]], a[1..]);
    assert Bytes([a[0]]) == a[0].bodySize;
  }

  /** fetch_sub on the quantity and memory counters: unsigned arithmetic. */
  function Less32(x: nat, n: nat): (r: nat)
    ensures n <= x < QUANTITY_MODULUS ==> r == x - n
  {
    (x - n) % QUANTITY_MODULUS
  }

  function Less64(x: nat, n: nat): (r: nat)
    ensures n <= x < MEMORY_MODULUS ==> r == x - n
  {
    (x - n) % MEMORY_MODULUS
  }

  function More32(x: nat, n: nat): (r: nat)
    ensures x + n < QUANTITY_MODULUS ==> r == x + n
  {
    (x + n) % QUANTITY_MODULUS
  }

  function More64(x: nat, n: nat): (r: nat)
    ensures x + n < MEMORY_MODULUS ==> r == x + n
  {
    (x + n) % MEMORY_MODULUS
  }

  predicate ShouldThrottle(quantity: nat, memory: nat, quantityThreshold: nat, memoryThreshold: nat) {
    quantity >= quantityThreshold || (memoryThreshold != 0 && memory >= memoryThreshold)
  }

  predicate Expired(now: nat, idleSince: nat) {
    now - idleSince > EXPIRATION_THRESHOLD
  }

  class ProcessQueue {
    var cachedQuantity: nat
    var cachedMemory: nat
    var idleSince: nat
    var broadcastMessages: seq<Message>

    constructor (now: nat)
      ensures cachedQuantity == 0 && cachedMemory == 0 && idleSince == now && broadcastMessages == []
    {
      cachedQuantity, cachedMemory, idleSince, broadcastMessages := 0, 0, now, [];
    }

    ghost predicate Valid()
      reads this
    {
      cachedQuantity < QUANTITY_MODULUS && cachedMemory < MEMORY_MODULUS
    }

    /** Reads the quantity first, then, unless that already throttles or the check is off, the memory. */
    method CheckThrottle(quantityThreshold: nat, memoryThreshold: nat) returns (r: bool)
      ensures r <==> ShouldThrottle(cachedQuantity, cachedMemory, quantityThreshold, memoryThreshold)
    {
      if cachedQuantity >= quantityThreshold {
        return true;
      }
      if memoryThreshold != 0 {
        if cachedMemory >= memoryThreshold {
          return true;
        }
      }
      return false;
    }

    method AccountCache(messages: seq<Message>)
      requires Valid()
      modifies this`cachedQuantity, this`cachedMemory
      ensures Valid()
      ensures cachedQuantity == More32(old(cachedQuantity), |messages|)
      ensures cachedMemory == More64(old(cachedMemory), Bytes(messages))
    {
      for i := 0 to |messages|
        invariant Valid()
        invariant cachedQuantity == More32(old(cachedQuantity), i)
        invariant cachedMemory == More64(old(cachedMemory), Bytes(messages[..i]))
      {
        assert messages[..i + 1][..i] == messages[..i];
        ModAdd(old(cachedQuantity) + i, 1, QUANTITY_MODULUS);
        ModAdd(old(cachedMemory) + Bytes(messages[..i]), messages[i].bodySize, MEMORY_MODULUS);
        cachedQuantity := More32(cachedQuantity, 1);
        cachedMemory := More64(cachedMemory, messages[i].bodySize);
      }
      assert messages[..|messages|] == messages;
    }

    method Release(bodySize: nat)
      requires Valid()
      modifies this`cachedQuantity, this`cachedMemory
      ensures Valid()
      ensures cachedQuantity == Less32(old(cachedQuantity), 1)
      ensures cachedMemory == Less64(old(cachedMemory), bodySize)
    {
      cachedQuantity := Less32(cachedQuantity, 1);
      cachedMemory := Less64(cachedMemory, bodySize);
    }

    method EnqueueBroadcastMessages(messages: seq<Message>)
      modifies this`broadcastMessages
      ensures broadcastMessages == old(broadcastMessages) + messages
    {
      for i := 0 to |messages|
        invariant broadcastMessages == old(broadcastMessages) + messages[..i]
      {
        broadcastMessages := broadcastMessages + [messages[i]];
      }
    }

    method DequeBroadcastMessage() returns (m: Option<Message>)
      modifies this`broadcastMessages
      ensures m.None? <==> old(broadcastMessages) == []
      ensures m.None? ==> broadcastMessages == []
      ensures m.Some? ==> [m.value] + broadcastMessages == old(broadcastMessages)
    {
      if broadcastMessages == [] {
        return None;
      }
      m := Some(broadcastMessages[0]);
      broadcastMessages := broadcastMessages[1..];
    }
  }
}
