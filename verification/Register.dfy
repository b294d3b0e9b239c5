/** The acceptance rule shared by the access cache and the secret store
    (internal/daemon/client.go, dispatch): a numbered full-state message replaces
    what is held unless its number is not above the number held, or its payload
    does not open. */
module Register {
  import opened Wire

  datatype Cell<+T> = Cell(number: nat, value: T)

  /** `content` is None when the payload cannot be parsed or opened. */
  datatype Message<+T> = Message(number: nat, content: Option<T>)

  function Offer<T>(c: Cell<T>, m: Message<T>): Cell<T> {
    if m.number != 0 && m.number <= c.number then c
    else if m.content.None? then c
    else Cell(m.number, m.content.value)
  }

  function OfferAll<T>(c: Cell<T>, ms: seq<Message<T>>): Cell<T> {
    if ms == [] then c else Offer(OfferAll(c, ms[..|ms| - 1]), ms[|ms| - 1])
  }

  /** Every message is numbered from 1, and one number carries one content. */
  ghost predicate Consistent<T(!new)>(ms: set<Message<T>>) {
    && (forall m | m in ms :: m.number > 0)
    && (forall m, m' | m in ms && m' in ms && m.content.Some? && m'.content.Some? && m.number == m'.number ::
          m == m')
  }

  /** `r` is the highest-numbered state among `c` and the messages that open. */
  ghost predicate IsHighest<T(!new)>(c: Cell<T>, ms: set<Message<T>>, r: Cell<T>) {
    && (r == c || (r.number > c.number && Message(r.number, Some(r.value)) in ms))
    && (forall m | m in ms && m.content.Some? :: m.number <= r.number)
  }

  lemma {:induction false} OfferAllIsHighest<T(!new)>(c: Cell<T>, ms: seq<Message<T>>)
    requires Consistent(Elements(ms))
    ensures IsHighest(c, Elements(ms), OfferAll(c, ms))
  {
    if ms != [] {
      var init, last := ms[..|ms| - 1], ms[|ms| - 1];
      assert ms == init + [last];
      assert Elements(ms) == Elements(init) + {last};
      OfferAllIsHighest(c, init);
    }
  }

  /** Any order, duplication or repetition of the same messages ends in the same state. */
  lemma Confluence<T(!new)>(c: Cell<T>, ms: seq<Message<T>>, ms': seq<Message<T>>)
    requires Elements(ms) == Elements(ms')
    requires Consistent(Elements(ms))
    ensures OfferAll(c, ms) == OfferAll(c, ms')
    ensures IsHighest(c, Elements(ms), OfferAll(c, ms))
  {
    OfferAllIsHighest(c, ms);
    OfferAllIsHighest(c, ms');
    HighestIsUnique(c, Elements(ms), OfferAll(c, ms), OfferAll(c, ms'));
  }

  lemma HighestIsUnique<T(!new)>(c: Cell<T>, ms: set<Message<T>>, r: Cell<T>, r': Cell<T>)
    requires Consistent(ms) && IsHighest(c, ms, r) && IsHighest(c, ms, r')
    ensures r == r'
  {
    if r != c {
      var m := Message(r.number, Some(r.value));
      assert m in ms && m.number <= r'.number;
    }
    if r' != c {
      var m' := Message(r'.number, Some(r'.value));
      assert m' in ms && m'.number <= r.number;
    }
  }
}
