/**
 * Typed ids (src/domain/id.rs).
 *
 * An `Id<T>` wraps a 128-bit UUID; the type parameter `T` is a phantom tag naming the kind of
 * entity, so an order id and a line-item id are different types over the same representation.
 * Equality, ordering and cloning all delegate to the wrapped value. Generating a random UUID and
 * parsing or printing UUID text are foreign calls: the random value is passed in as `draw`, and
 * the UUID parser and formatter are passed in as functions.
 */
module Ids {
  import opened Wrappers

  const UUID_LIMIT: int := 0x1_0000_0000_0000_0000_0000_0000_0000_0000

  /** A UUID, read as the 128-bit unsigned number its 16 bytes spell most significant first. */
  type Uuid = x: int | 0 <= x < UUID_LIMIT

  /** The error of a failed id conversion: the text of the UUID library's error. */
  type IdError = string

  /** `std::cmp::Ordering`. */
  datatype Ordering = Less | Equal | Greater {
    function Reverse(): Ordering
    {
      match this
      case Less => Greater
      case Equal => Equal
      case Greater => Less
    }
  }

  /** Compares two UUIDs the way `Uuid`'s `Ord` does: bytewise, that is numerically. */
  function CompareUuids(a: Uuid, b: Uuid): Ordering
  {
    if a < b then Less else if a == b then Equal else Greater
  }

  datatype Id<T> = Id(uuid: Uuid) {

    /** `PartialEq::eq`: two ids are equal exactly when their UUIDs are. */
    function Eq(other: Id<T>): (r: bool)
      ensures r <==> this == other
    {
      uuid == other.uuid
    }

    /** `PartialEq::ne`, written in its own right on the UUIDs. */
    function Ne(other: Id<T>): (r: bool)
      ensures r <==> !Eq(other)
    {
      uuid != other.uuid
    }

    /** `Ord::cmp`: the UUID ordering. */
    function Cmp(other: Id<T>): (r: Ordering)
      ensures r == Equal <==> Eq(other)
      ensures r == Less <==> uuid < other.uuid
      ensures r == Greater <==> other.uuid < uuid
    {
      CompareUuids(uuid, other.uuid)
    }

    /** `PartialOrd::partial_cmp`: ids are totally ordered, so it is always defined. */
    function PartialCmp(other: Id<T>): (r: Option<Ordering>)
      ensures r == Some(Cmp(other))
    {
      Some(CompareUuids(uuid, other.uuid))
    }

    /** `Clone::clone` (and `Copy`): a new id over the same UUID. */
    function Clone(): (r: Id<T>)
      ensures r.Eq(this) && r.Cmp(this) == Equal
    {
      Id(uuid)
    }

    /** `Display`/`Debug`: the UUID's text, as produced by the UUID library's `format`. */
    function ToText(format: Uuid -> string): (s: string)
      ensures s == format(uuid)
    {
      format(uuid)
    }
  }

  /**
   * `TryFrom<&str> for Id<T>`: parse the text as a UUID and wrap it; a parse failure is
   * returned as the parser's error text.
   */
  function TryFrom<T>(parse: string -> Result<Uuid, IdError>, text: string): (r: Result<Id<T>, IdError>)
    ensures r.Ok? <==> parse(text).Ok?
    ensures r.Ok? ==> r.value.uuid == parse(text).value
    ensures r.Err? ==> r.error == parse(text).error
  {
    match parse(text)
    case Ok(u) => Ok(Id(u))
    case Err(e) => Err(e)
  }

  /** Printing an id and parsing the text back gives the same id, when the UUID parser inverts the formatter. */
  lemma ParseFormatRoundTrip<T>(parse: string -> Result<Uuid, IdError>, format: Uuid -> string, id: Id<T>)
    requires forall u: Uuid :: parse(format(u)) == Ok(u)
    ensures TryFrom<T>(parse, id.ToText(format)) == Ok(id)
  {
  }

  /** `cmp` is antisymmetric: swapping the operands reverses the answer. */
  lemma CmpAntisymmetric<T>(a: Id<T>, b: Id<T>)
    ensures a.Cmp(b) == b.Cmp(a).Reverse()
  {
  }

  /** `cmp` is transitive, so it is a total order on ids. */
  lemma CmpTransitive<T>(a: Id<T>, b: Id<T>, c: Id<T>)
    requires a.Cmp(b) != Greater && b.Cmp(c) != Greater
    ensures a.Cmp(c) != Greater
    ensures a.Cmp(b) == Less || b.Cmp(c) == Less ==> a.Cmp(c) == Less
  {
  }

  /**
   * An `IdProvider<T>`. `FixedId` is an id used as its own provider, `NextId` the generating
   * provider, and `OtherProvider` any other implementation of the trait, given by its answer.
   */
  datatype IdProvider<T> = FixedId(id: Id<T>) | NextId | OtherProvider(answer: Result<Id<T>, IdError>) {

    /**
     * `IdProvider::id`. `draw` is the UUID a generating provider would obtain from
     * `Uuid::new_v4()`; only `NextId` uses it.
     */
    function Provide(draw: Id<T>): (r: Result<Id<T>, IdError>)
      ensures FixedId? ==> r == Ok(id)
      ensures NextId? ==> r == Ok(draw)
      ensures r.Err? ==> OtherProvider? && r == answer
    {
      match this
      case FixedId(fixed) => Ok(fixed.Clone())
      case NextId => Ok(draw)
      case OtherProvider(answer) => answer
    }
  }

  /** The two providers of id.rs never fail, whatever the random draw. */
  lemma BuiltInProvidersNeverFail<T>(p: IdProvider<T>, draw: Id<T>)
    requires !p.OtherProvider?
    ensures p.Provide(draw).Ok?
  {
  }
}
