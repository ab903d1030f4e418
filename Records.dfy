/** The transaction record of the tracker, how the two entry forms build one,
    and the order-preserving selection used both by the render pass and by
    deletion (TransactionModule and the filters of CoreLogic.render). */
module Records {
  import opened Calendar
  import opened Selection

  datatype Option<T> = None | Some(value: T)

  /** The `type` field: 'plus' for money in; every other value counts as money out. */
  datatype Kind = Plus | Minus

  /** The cost (`modal`) and sell price (`jual`) of a sale. */
  datatype Sale = Sale(modal: int, jual: int)

  /** One stored transaction. `day` is the focused day it was entered on,
      `sale` holds the prices of a profit entry (isProfit) and is None for a
      plain cash entry, `time` is the hour:minute label. */
  datatype Tx = Tx(id: int, desc: string, amount: int, kind: Kind,
                   sale: Option<Sale>, day: int, time: string)
  {
    predicate IsProfit() { sale.Some? }
  }

  /** The value a transaction adds to a signed total: its amount for 'plus',
      minus its amount otherwise. */
  function Signed(t: Tx): int
  {
    if t.kind == Plus then t.amount else -t.amount
  }

  /** The label a sale gets when its name field is left empty. */
  const DefaultSaleName: string := "Jualan"

  /** saveTransaction's check and record: rejects an empty description or a
      non-positive amount, otherwise builds a plain entry on `day`. */
  function PlainEntry(desc: string, amt: int, kind: Kind, id: int, day: int, time: string): (r: Option<Tx>)
    ensures r.None? <==> desc == [] || amt <= 0
    ensures r.Some? ==> (r.value.id == id && r.value.desc == desc && r.value.amount == amt
                         && r.value.kind == kind && !r.value.IsProfit() && r.value.day == day
                         && r.value.time == time)
    ensures r.Some? ==> Signed(r.value) != 0 && (Signed(r.value) > 0 <==> kind == Plus)
  {
    if desc == [] || amt <= 0 then None
    else Some(Tx(id, desc, amt, kind, None, day, time))
  }

  /** saveProfit's check and record: rejects a zero sell price, otherwise
      builds a sale on `day` whose amount is the margin and whose kind is
      always Plus, even for a loss. */
  function ProfitEntry(name: string, modal: int, jual: int, id: int, day: int, time: string): (r: Option<Tx>)
    ensures r.None? <==> jual == 0
    ensures r.Some? ==> (r.value.id == id && r.value.amount == jual - modal && r.value.kind == Plus
                         && r.value.sale == Some(Sale(modal, jual)) && r.value.day == day
                         && r.value.time == time)
    ensures r.Some? ==> r.value.desc == (if name == [] then DefaultSaleName else name)
    ensures r.Some? ==> r.value.desc != [] && Signed(r.value) == jual - modal
  {
    var desc := if name != [] then name else DefaultSaleName;
    if jual == 0 then None
    else Some(Tx(id, desc, jual - modal, Plus, Some(Sale(modal, jual)), day, time))
  }

  /** The tests the source applies to a single transaction. */
  datatype Criterion =
    | OnDay(focused: int)     // stored date equals the focused date
    | FromDay(first: int)     // stored date at or after the week start
    | SameMonth(now: int)     // same month and year as now
    | SameYear(now: int)      // same year as now
    | OtherId(id: int)        // kept by deleteItem(id)

  predicate Matches(t: Tx, c: Criterion)
  {
    match c
    case OnDay(d) => t.day == d
    case FromDay(d) => t.day >= d
    case SameMonth(n) => Month(t.day) == Month(n) && Year(t.day) == Year(n)
    case SameYear(n) => Year(t.day) == Year(n)
    case OtherId(id) => t.id != id
  }

  /** `c` as a function value, for selection. */
  function Meets(c: Criterion): Tx -> bool
  {
    t => Matches(t, c)
  }

  /** The transactions of `s` that meet `c`, in the order of `s`. */
  function Filter(s: seq<Tx>, c: Criterion): (r: seq<Tx>)
    ensures |r| <= |s|
    ensures forall t :: t in r <==> t in s && Matches(t, c)
  {
    Keep(s, Meets(c))
  }

  /** deleteItem: the store without every transaction whose id is `id`
      (ids come from the clock and may repeat). */
  function WithoutId(s: seq<Tx>, id: int): (r: seq<Tx>)
    ensures forall t :: t in r <==> t in s && t.id != id
    ensures |r| <= |s|
  {
    Filter(s, OtherId(id))
  }

  /** Deleting an id that no transaction carries leaves the store as it was. */
  lemma WithoutAbsentId(s: seq<Tx>, id: int)
    requires forall t :: t in s ==> t.id != id
    ensures WithoutId(s, id) == s
  {
    KeepAll(s, Meets(OtherId(id)));
  }

  /** Deleting the same id twice is deleting it once. */
  lemma WithoutIdIdempotent(s: seq<Tx>, id: int)
    ensures WithoutId(WithoutId(s, id), id) == WithoutId(s, id)
  {
    KeepIdempotent(s, Meets(OtherId(id)));
  }

  /** Deletion keeps the survivors of `a + b` in their order. */
  lemma WithoutIdAppend(a: seq<Tx>, b: seq<Tx>, id: int)
    ensures WithoutId(a + b, id) == WithoutId(a, id) + WithoutId(b, id)
  {
    KeepAppend(a, b, Meets(OtherId(id)));
  }
}
