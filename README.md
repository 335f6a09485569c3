# simple-hal: the HalRepresentation builder in Dafny

`HalRepresentation` accumulates one HAL (Hypertext Application Language)
resource before it is serialized. It keeps three independent tables, each a
`TreeMap<String, Object>`: plain `properties`, `_links` (relation to a Link or
an array of Links) and `_embedded` (relation to a representation or an array
of representations). Every `add*` builder method puts one entry into exactly
one table and returns the representation itself, so calls chain. Two private
helpers apply a numeric-kind policy first: `normalizeInteger` narrows a
`Double`/`Float` to a `long`, and `normalizeNumber` turns every non-floating
kind into a `float`.

The model:

- `wrappers.dfy` (`Wrappers`): `Option` for a Java reference that may be null,
  `Result` for an operation that may throw.
- `numbers.dfy` (`Numbers`): a `Number` is its run-time class (`NumKind`) and
  the real value it denotes. `LongValue` is Java's `(long)` narrowing of a
  floating value: it rounds toward zero and saturates at `Long.MIN_VALUE` and
  `Long.MAX_VALUE`. `NormalizeInteger` and `NormalizeNumber` are the two
  helpers. `ValidNum` says which values a Java `Number` of each kind can hold.
- `key_order.dfy` (`KeyOrder`): `Less` is `String.compareTo(a, b) < 0`.
  `SortedKeys` is the order in which a `TreeMap` iterates a key set. The
  lemmas show that `Less` is a strict total order and that this iteration
  order depends on the key set alone.
- `hal_representation.dfy` (`Hal`): the class `HalRepresentation` with the
  fields `properties`, `links` and `embedded`. The source's `_links` and
  `_embedded` are renamed because a Dafny identifier cannot start with `_`.
  Every builder method has `modifies this`. Its ensures state the one table
  entry it puts and that the other two tables are unchanged. `_embedded`
  holds references to representations, as the Java table does. `BuildWidget`
  is a client that chains the builder calls.

`normalizeInteger` (`HalRepresentation.java:72-78`) truncates only `Double`
and `Float`, so `addInteger` does not always store a whole number: a
`BigDecimal` such as 3.9 is stored unchanged, fraction included.
The same holds for any other `Number` subclass (`OtherNumber`, such as a
`DoubleAdder` holding 3.9). `Numbers.NormalizeIntegerKeepsBigDecimal` states
the `BigDecimal` case. `Numbers.NormalizeIntegerWhole` states that every valid
number that is neither a `BigDecimal` nor another `Number` subclass is stored
as a whole value. Here `ValidNum` means that integral kinds are whole and
fixed-width kinds are in range.

Java's overloads map to Dafny names as follows:

- `addLink(String, String)` is `AddLinkUri`.
- `addLink(String, Link)` is `AddLink`.
- The `Iterable` and `Stream` overloads of the list methods become one method
  that takes a `seq`.

## Model

| member | source | states |
|---|---|---|
| Numbers.IsFloating | src/main/java/com/github/wromijn/simplehal/HalRepresentation.java:73 | exactly Double and Float pass the instanceof tests; a floating kind is never integral, and every kind is floating, integral, BigDecimal or another Number subclass |
| Numbers.TruncateTowardZero | src/main/java/com/github/wromijn/simplehal/HalRepresentation.java:74 | the result is the integer part of x, rounded toward zero and keeping the sign of x, strictly within 1 of x |
| Numbers.LongValue | src/main/java/com/github/wromijn/simplehal/HalRepresentation.java:74 | longValue of a Double/Float is within the long range, lies between 0 and x, is within 1 of x when x is in range, and saturates at Long.MIN_VALUE/Long.MAX_VALUE outside it |
| Numbers.NormalizeInteger | src/main/java/com/github/wromijn/simplehal/HalRepresentation.java:72-78 | null stays null; a Double/Float becomes a Long holding a whole value narrowed toward zero; every other kind is returned unchanged; the result is never a floating kind |
| Numbers.NormalizeNumber | src/main/java/com/github/wromijn/simplehal/HalRepresentation.java:64-70 | null stays null; Double and Float are returned unchanged; every other kind becomes a Float of the same value; a non-null result is always a floating kind |
| Numbers.NormalizeIntegerTruncates | src/main/java/com/github/wromijn/simplehal/HalRepresentation.java:72-78 | a Double/Float inside the long range is stored as a Long equal to its truncation toward zero |
| Numbers.NormalizeIntegerValid | src/main/java/com/github/wromijn/simplehal/HalRepresentation.java:72-78 | normalizing a valid number as an integer gives a valid number: a narrowed Double/Float is a whole Long in the long range |
| Numbers.NormalizeIntegerWhole | src/main/java/com/github/wromijn/simplehal/HalRepresentation.java:44-47 | addInteger stores a whole value for every valid number except a BigDecimal or another Number subclass |
| Numbers.NormalizeIntegerIdempotent | src/main/java/com/github/wromijn/simplehal/HalRepresentation.java:72-78 | normalizing as an integer twice equals normalizing once |
| Numbers.NormalizeNumberIdempotent | src/main/java/com/github/wromijn/simplehal/HalRepresentation.java:64-70 | normalizing as a number twice equals normalizing once |
| Numbers.NormalizeIntegerExamples | src/main/java/com/github/wromijn/simplehal/HalRepresentation.java:44-47 | addInteger of Double 3.9 stores Long 3, of Float -3.9 stores Long -3, and of Integer 42 stores Integer 42 |
| Numbers.NormalizeIntegerKeepsBigDecimal | src/main/java/com/github/wromijn/simplehal/HalRepresentation.java:73 | a BigDecimal 3.9 is not truncated: only Double and Float are |
| Numbers.NormalizeNumberExamples | src/main/java/com/github/wromijn/simplehal/HalRepresentation.java:49-52 | addNumber of Integer 3 stores Float 3; a Double and null are stored unchanged |
| KeyOrder.Less | src/main/java/com/github/wromijn/simplehal/HalRepresentation.java:16-20 | String.compareTo(a, b) < 0: holds exactly when the first differing character of a is the smaller one, or a is a proper prefix of b |
| KeyOrder.LessIrreflexive | src/main/java/com/github/wromijn/simplehal/HalRepresentation.java:16 | no key orders before itself under String.compareTo |
| KeyOrder.LessTransitive | src/main/java/com/github/wromijn/simplehal/HalRepresentation.java:16 | the String order of TreeMap keys is transitive |
| KeyOrder.LessTotal | src/main/java/com/github/wromijn/simplehal/HalRepresentation.java:16 | any two different keys are ordered one way or the other |
| KeyOrder.LessAsymmetric | src/main/java/com/github/wromijn/simplehal/HalRepresentation.java:16 | two keys are never ordered both ways |
| KeyOrder.Least | src/main/java/com/github/wromijn/simplehal/HalRepresentation.java:16-20 | the first key of a non-empty key set belongs to it and orders before every other key |
| KeyOrder.SortedKeys | src/main/java/com/github/wromijn/simplehal/HalRepresentation.java:16-20 | a table iterates each of its keys exactly once, in strictly ascending String order |
| KeyOrder.AscendingHeadIsLeast | src/main/java/com/github/wromijn/simplehal/HalRepresentation.java:16-20 | the first key of any ascending listing of a key set is its least key |
| KeyOrder.AscendingTail | src/main/java/com/github/wromijn/simplehal/HalRepresentation.java:16-20 | after the first key, an ascending listing lists exactly the remaining keys, still ascending |
| KeyOrder.SortedKeysCons | src/main/java/com/github/wromijn/simplehal/HalRepresentation.java:16-20 | the least key followed by the iteration order of the remaining keys is the iteration order of the whole set |
| KeyOrder.AscendingCons | src/main/java/com/github/wromijn/simplehal/HalRepresentation.java:16-20 | a key before every key of an ascending listing can be put in front and the listing stays ascending |
| KeyOrder.SortedKeysUnique | src/main/java/com/github/wromijn/simplehal/HalRepresentation.java:16-20 | every strictly ascending listing of a key set is the iteration order, so it depends on the keys alone and not on insertion order |
| KeyOrder.SortedKeysOfTwo | src/main/java/com/github/wromijn/simplehal/HalRepresentation.java:16-20 | two keys are iterated in ascending order whichever was put first |
| Hal.InlineTables | src/main/java/com/github/wromijn/simplehal/HalRepresentation.java:93 | the mapped array has one element per representation, in order, element i being the properties table of representation i |
| Hal.PutTwiceKeepsLast | src/main/java/com/github/wromijn/simplehal/HalRepresentation.java:40 | a second put under a key replaces the first value and the key count does not grow again |
| Hal.PutsCommute | src/main/java/com/github/wromijn/simplehal/HalRepresentation.java:16-20 | puts under different keys commute, so a table, and with it its iteration order, does not depend on which key was put first |
| Hal.WidgetKeyOrder | src/main/java/com/github/wromijn/simplehal/HalRepresentation.java:16-20 | a table holding "id" and "name" iterates "id" first |
| Hal.HalRepresentation.PropertyOrder | src/main/java/com/github/wromijn/simplehal/HalRepresentation.java:16 | the properties table iterates each of its names exactly once, in strictly ascending order |
| Hal.HalRepresentation.LinkOrder | src/main/java/com/github/wromijn/simplehal/HalRepresentation.java:18 | the `_links` table iterates each of its relations exactly once, in strictly ascending order |
| Hal.HalRepresentation.EmbeddedOrder | src/main/java/com/github/wromijn/simplehal/HalRepresentation.java:20 | the `_embedded` table iterates each of its relations exactly once, in strictly ascending order |
| Hal.HalRepresentation.PropertyOrderUnique | src/main/java/com/github/wromijn/simplehal/HalRepresentation.java:16 | every strictly ascending listing of the property names is the iteration order, so insertion order never shows |
| Hal.HalRepresentation.constructor | src/main/java/com/github/wromijn/simplehal/HalRepresentation.java:16-20 | a new representation has three empty tables |
| Hal.HalRepresentation.FromObject | src/main/java/com/github/wromijn/simplehal/HalRepresentation.java:22-31 | a mapper failure becomes IllegalArgument; otherwise a fresh representation whose properties are the mapped map and whose links and embedded tables are empty |
| Hal.HalRepresentation.AddBoolean | src/main/java/com/github/wromijn/simplehal/HalRepresentation.java:39-42 | properties[name] becomes the boolean or null; every other property, all links and all embedded entries are unchanged; returns this |
| Hal.HalRepresentation.AddInteger | src/main/java/com/github/wromijn/simplehal/HalRepresentation.java:44-47 | properties[name] becomes the normalizeInteger'ed number (never a floating kind) or null; nothing else changes; returns this |
| Hal.HalRepresentation.AddNumber | src/main/java/com/github/wromijn/simplehal/HalRepresentation.java:49-52 | properties[name] becomes the normalizeNumber'ed number (always a floating kind) or null; nothing else changes; returns this |
| Hal.HalRepresentation.AddString | src/main/java/com/github/wromijn/simplehal/HalRepresentation.java:54-57 | properties[name] becomes the string or null; nothing else changes; returns this |
| Hal.HalRepresentation.AddOther | src/main/java/com/github/wromijn/simplehal/HalRepresentation.java:59-62 | properties[name] becomes the value as given; nothing else changes; returns this |
| Hal.HalRepresentation.AddInline | src/main/java/com/github/wromijn/simplehal/HalRepresentation.java:82-85 | properties[name] becomes the other representation's properties table, without its links or embedded entries; this one's links and embedded and the other representation are unchanged |
| Hal.HalRepresentation.AddInlineList | src/main/java/com/github/wromijn/simplehal/HalRepresentation.java:87-95 | properties[name] becomes an array of the same length and order whose element i is the properties table of representation i; an empty input stores an empty array; every other property and both other tables are unchanged |
| Hal.HalRepresentation.AddLinkUri | src/main/java/com/github/wromijn/simplehal/HalRepresentation.java:99-102 | links[rel] becomes a Link built from uri; properties and embedded are unchanged |
| Hal.HalRepresentation.AddLink | src/main/java/com/github/wromijn/simplehal/HalRepresentation.java:104-107 | links[rel] becomes the given Link; properties and embedded are unchanged |
| Hal.HalRepresentation.AddLinkList | src/main/java/com/github/wromijn/simplehal/HalRepresentation.java:109-117 | links[rel] becomes the array of the given links in their order; properties and embedded are unchanged |
| Hal.HalRepresentation.AddEmbedded | src/main/java/com/github/wromijn/simplehal/HalRepresentation.java:121-124 | embedded[rel] becomes the whole representation, its own links and embedded included; properties and links are unchanged |
| Hal.HalRepresentation.AddEmbeddedList | src/main/java/com/github/wromijn/simplehal/HalRepresentation.java:126-134 | embedded[rel] becomes the array of the given representations in their order; properties and links are unchanged |
| Hal.BuildWidget | src/main/java/com/github/wromijn/simplehal/HalRepresentation.java:39-124 | chained builder calls: a second addLink under "self" leaves only the later link, and the embedded part keeps its own links |

## Left out

- Serialization: the HalSerializer named in the class annotation is not part of this model, so neither is the placement of `_links` and `_embedded` after the properties in the JSON output.
- Link: not part of this model beyond a value built from a URI string; its other attributes are not modelled.
- FromObject: Jackson's valueToTree/treeToValue are foreign calls, so they are a mapper parameter that yields a map or fails; the default-mapper overload `fromObject(Object)` is the same call with a fixed mapper.
- NormalizeNumber: keeps the value of a number converted to Float; the rounding of Number.floatValue to single precision is not modelled.
- LongValue: models values as reals, so NaN (narrowed to 0) and the infinities are not modelled; truncation and saturation are.
- AddInline: stores a snapshot of the other representation's properties; Java stores a reference to the map itself, so later changes to that representation (or inlining a representation into itself) would show through there and do not here.
- AddInlineList: stores snapshots as AddInline does.
- AddOther: takes a JSON-compatible Value; arbitrary Java objects are not modelled.
- Null arguments for a Link, a representation or a list are not modelled: Java stores a null Link or embedded reference and throws NullPointerException for a null representation to inline or a null list.
- Null names and relations are not modelled: every add* method takes a `string`, while in Java `TreeMap.put` with a null key throws NullPointerException, so `addString(null, "x")` throws there and has no counterpart here.
- AddLinkUri: takes a non-null uri; Java's `new Link(null)` for a null uri is not modelled.
- Null list elements are not modelled: a null element makes addInlineList throw NullPointerException when it reads `r.properties`, and addLinkList and addEmbeddedList store null entries.
- KeyOrder.Less: compares Dafny characters, that is Unicode scalar values; String.compareTo compares UTF-16 code units, which orders supplementary characters differently from characters U+E000 to U+FFFF.
- The Iterable and Stream overloads are one method taking a sequence, since the Iterable forms only wrap their argument in a stream.
