/**
 * HalRepresentation: a HAL resource under construction. Plain properties,
 * links and embedded resources live in three independent tables, each a
 * TreeMap keyed by name; every builder method puts one entry into one table
 * and returns the representation itself.
 */
module Hal {
  import opened Wrappers
  import opened Numbers
  import opened KeyOrder

  /** The JSON-compatible values a property can hold. */
  datatype Value =
    | Null
    | Bool(b: bool)
    | Number(n: Num)
    | Str(s: string)
    | Object(fields: map<string, Value>)
    | Array(items: seq<Value>)

  /** A Link, as built from a URI; its other attributes are not modelled. */
  datatype Link = Link(uri: string)

  /** What `_links` holds under a relation: one Link or an array of them. */
  datatype LinkEntry = OneLink(link: Link) | LinkArray(links: seq<Link>)

  /** What `_embedded` holds under a relation: one representation or an array of them. */
  datatype EmbeddedEntry =
    | OneRepresentation(rep: HalRepresentation)
    | RepresentationArray(reps: seq<HalRepresentation>)

  /** The error fromObject throws when the mapper cannot produce a map. */
  datatype Error = IllegalArgument(cause: string)

  function BoolOrNull(b: Option<bool>): Value
  {
    match b
    case None => Null
    case Some(v) => Bool(v)
  }

  function StringOrNull(s: Option<string>): Value
  {
    match s
    case None => Null
    case Some(v) => Str(v)
  }

  function NumberOrNull(n: Option<Num>): Value
  {
    match n
    case None => Null
    case Some(v) => Number(v)
  }

  /**
   * `representations.map(r -> r.properties).toArray()`: the properties table
   * of every representation, in the order given.
   */
  method InlineTables(reps: seq<HalRepresentation>) returns (items: seq<Value>)
    ensures |items| == |reps|
    ensures forall i :: 0 <= i < |reps| ==> items[i] == Object(reps[i].properties)
  {
    items := [];
    for i := 0 to |reps|
      invariant |items| == i
      invariant forall j :: 0 <= j < i ==> items[j] == Object(reps[j].properties)
    {
      items := items + [Object(reps[i].properties)];
    }
  }

  /** Putting a key twice keeps only the second value and adds the key once. */
  lemma PutTwiceKeepsLast<V>(m: map<string, V>, k: string, v1: V, v2: V)
    ensures m[k := v1][k := v2] == m[k := v2]
    ensures |m[k := v1][k := v2]| == |m[k := v1]| == (if k in m then |m| else |m| + 1)
  {
  }

  /** Puts under different keys commute, so insertion order never shows in a table. */
  lemma PutsCommute<V>(m: map<string, V>, k1: string, v1: V, k2: string, v2: V)
    requires k1 != k2
    ensures m[k1 := v1][k2 := v2] == m[k2 := v2][k1 := v1]
  {
  }

  class HalRepresentation {
    var properties: map<string, Value>
    var links: map<string, LinkEntry>        // `_links` in the source
    var embedded: map<string, EmbeddedEntry> // `_embedded` in the source

    /** The order in which properties iterates its names. */
    ghost function PropertyOrder(): (ks: seq<string>)
      reads this
      ensures forall k :: k in ks <==> k in properties
      ensures |ks| == |properties| && StrictlyAscending(ks)
    {
      SortedKeys(properties.Keys)
    }

    /** The order in which `_links` iterates its relations. */
    ghost function LinkOrder(): (ks: seq<string>)
      reads this
      ensures forall k :: k in ks <==> k in links
      ensures |ks| == |links| && StrictlyAscending(ks)
    {
      SortedKeys(links.Keys)
    }

    /** The order in which `_embedded` iterates its relations. */
    ghost function EmbeddedOrder(): (ks: seq<string>)
      reads this
      ensures forall k :: k in ks <==> k in embedded
      ensures |ks| == |embedded| && StrictlyAscending(ks)
    {
      SortedKeys(embedded.Keys)
    }

    /**
     * The property order depends on the property names alone: any strictly
     * ascending listing of them is the order, whatever the insertion order was.
     */
    lemma PropertyOrderUnique(ks: seq<string>)
      requires StrictlyAscending(ks)
      requires forall k :: k in ks <==> k in properties
      ensures PropertyOrder() == ks
    {
      SortedKeysUnique(properties.Keys, ks);
    }

    /** A new representation has three empty tables. */
    constructor ()
      ensures properties == map[] && links == map[] && embedded == map[]
    {
      properties, links, embedded := map[], map[], map[];
    }

    /**
     * fromObject: the mapper stands for Jackson's valueToTree followed by
     * treeToValue(_, Map.class). Its map becomes the properties of a new
     * representation; a mapper failure is rethrown as IllegalArgumentException.
     */
    static method FromObject<S>(o: S, mapper: S -> Result<map<string, Value>, string>)
      returns (r: Result<HalRepresentation, Error>)
      ensures mapper(o).Failure? ==> r == Failure(IllegalArgument(mapper(o).error))
      ensures mapper(o).Success? ==>
        && r.Success? && fresh(r.value)
        && r.value.properties == mapper(o).value
        && r.value.links == map[] && r.value.embedded == map[]
    {
      var representation := new HalRepresentation();
      match mapper(o)
      case Failure(e) =>
        r := Failure(IllegalArgument(e));
      case Success(m) =>
        representation.properties := representation.properties + m;
        r := Success(representation);
    }

    method AddBoolean(name: string, value: Option<bool>) returns (self: HalRepresentation)
      modifies this
      ensures self == this
      ensures properties == old(properties)[name := BoolOrNull(value)]
      ensures links == old(links) && embedded == old(embedded)
    {
      properties := properties[name := BoolOrNull(value)];
      self := this;
    }

    /** Stores the number after normalizeInteger: Double and Float become a truncated Long. */
    method AddInteger(name: string, number: Option<Num>) returns (self: HalRepresentation)
      modifies this
      ensures self == this
      ensures properties == old(properties)[name := NumberOrNull(NormalizeInteger(number))]
      ensures links == old(links) && embedded == old(embedded)
      ensures properties[name].Null? || !IsFloating(properties[name].n.kind)
    {
      properties := properties[name := NumberOrNull(NormalizeInteger(number))];
      self := this;
    }

    /** Stores the number after normalizeNumber: null or a Double or Float. */
    method AddNumber(name: string, value: Option<Num>) returns (self: HalRepresentation)
      modifies this
      ensures self == this
      ensures properties == old(properties)[name := NumberOrNull(NormalizeNumber(value))]
      ensures links == old(links) && embedded == old(embedded)
      ensures properties[name].Null? || IsFloating(properties[name].n.kind)
    {
      properties := properties[name := NumberOrNull(NormalizeNumber(value))];
      self := this;
    }

    method AddString(name: string, value: Option<string>) returns (self: HalRepresentation)
      modifies this
      ensures self == this
      ensures properties == old(properties)[name := StringOrNull(value)]
      ensures links == old(links) && embedded == old(embedded)
    {
      properties := properties[name := StringOrNull(value)];
      self := this;
    }

    /** Stores any value as it is. */
    method AddOther(name: string, o: Value) returns (self: HalRepresentation)
      modifies this
      ensures self == this
      ensures properties == old(properties)[name := o]
      ensures links == old(links) && embedded == old(embedded)
    {
      properties := properties[name := o];
      self := this;
    }

    /**
     * Nests the properties table of another representation under name; its
     * links and embedded resources are not copied, and it is not changed.
     */
    method AddInline(name: string, representation: HalRepresentation) returns (self: HalRepresentation)
      modifies this
      ensures self == this
      ensures properties == old(properties)[name := Object(old(representation.properties))]
      ensures links == old(links) && embedded == old(embedded)
      ensures representation != this ==>
        && representation.properties == old(representation.properties)
        && representation.links == old(representation.links)
        && representation.embedded == old(representation.embedded)
    {
      properties := properties[name := Object(representation.properties)];
      self := this;
    }

    /**
     * Stores under name an array holding the properties table of each given
     * representation, in order; an empty sequence stores an empty array.
     */
    method AddInlineList(name: string, representations: seq<HalRepresentation>) returns (self: HalRepresentation)
      modifies this
      ensures self == this
      ensures name in properties && properties[name].Array?
      ensures var items := properties[name].items;
        && |items| == |representations|
        && forall i :: 0 <= i < |items| ==> items[i] == Object(old(representations[i].properties))
      ensures forall k :: k in old(properties) && k != name ==> k in properties && properties[k] == old(properties)[k]
      ensures properties.Keys == old(properties).Keys + {name}
      ensures links == old(links) && embedded == old(embedded)
    {
      var items := InlineTables(representations);
      properties := properties[name := Array(items)];
      self := this;
    }

    /** Stores a Link built from uri under rel. */
    method AddLinkUri(rel: string, uri: string) returns (self: HalRepresentation)
      modifies this
      ensures self == this
      ensures links == old(links)[rel := OneLink(Link(uri))]
      ensures properties == old(properties) && embedded == old(embedded)
    {
      links := links[rel := OneLink(Link(uri))];
      self := this;
    }

    method AddLink(rel: string, link: Link) returns (self: HalRepresentation)
      modifies this
      ensures self == this
      ensures links == old(links)[rel := OneLink(link)]
      ensures properties == old(properties) && embedded == old(embedded)
    {
      links := links[rel := OneLink(link)];
      self := this;
    }

    /** Stores the links under rel as an array, in the order given. */
    method AddLinkList(rel: string, items: seq<Link>) returns (self: HalRepresentation)
      modifies this
      ensures self == this
      ensures links == old(links)[rel := LinkArray(items)]
      ensures properties == old(properties) && embedded == old(embedded)
    {
      links := links[rel := LinkArray(items)];
      self := this;
    }

    /** Stores the whole representation, its own links and embedded resources included. */
    method AddEmbedded(rel: string, representation: HalRepresentation) returns (self: HalRepresentation)
      modifies this
      ensures self == this
      ensures embedded == old(embedded)[rel := OneRepresentation(representation)]
      ensures properties == old(properties) && links == old(links)
    {
      embedded := embedded[rel := OneRepresentation(representation)];
      self := this;
    }

    /** Stores the representations under rel as an array, in the order given. */
    method AddEmbeddedList(rel: string, representations: seq<HalRepresentation>) returns (self: HalRepresentation)
      modifies this
      ensures self == this
      ensures embedded == old(embedded)[rel := RepresentationArray(representations)]
      ensures properties == old(properties) && links == old(links)
    {
      embedded := embedded[rel := RepresentationArray(representations)];
      self := this;
    }
  }

  /** "id" comes before "name", so a table holding both iterates "id" first. */
  lemma WidgetKeyOrder()
    ensures SortedKeys({"id", "name"}) == ["id", "name"]
  {
    assert Less("id", "name");
    SortedKeysOfTwo("id", "name");
  }

  /**
   * A client of the builder: chained calls, a link put twice under "self",
   * and an embedded part that keeps its own links.
   */
  method BuildWidget() returns (widget: HalRepresentation, part: HalRepresentation)
    ensures fresh(widget) && fresh(part) && widget != part
    ensures widget.properties == map["name" := Str("widget"), "id" := Number(Num(Integer, 42.0))]
    ensures widget.links == map["self" := OneLink(Link("/widgets/42"))]
    ensures widget.embedded == map["parts" := OneRepresentation(part)]
    ensures part.properties == map["id" := Number(Num(Integer, 1.0))]
    ensures part.links == map["self" := OneLink(Link("/parts/1"))]
  {
    part := new HalRepresentation();
    var p := part.AddInteger("id", Some(Num(Integer, 1.0)));
    p := p.AddLinkUri("self", "/parts/1");
    assert part.properties == map["id" := Number(Num(Integer, 1.0))];

    widget := new HalRepresentation();
    var w := widget.AddString("name", Some("widget"));
    w := w.AddInteger("id", Some(Num(Integer, 42.0)));
    assert widget.properties == map["name" := Str("widget"), "id" := Number(Num(Integer, 42.0))];
    w := w.AddLinkUri("self", "/widgets/0");
    w := w.AddLinkUri("self", "/widgets/42");
    w := w.AddEmbedded("parts", part);
  }
}
