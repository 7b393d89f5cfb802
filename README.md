# SOLID demos in Dafny

This project models three of the design-principle demos in the Java
package `com.plottwist.solid`, and proves what their code promises.

- **Open/closed** (`open_closed.dfy`, module `OpenClosed`). It covers products with a
  colour and a size, the `Specification` predicates over them (colour, size,
  and the AND combinator), `BetterFilter.filter`, and the older hard-coded
  `ProductFilter` methods. Java's `Stream.filter` is modelled once, as
  `StreamFilter` on a finished sequence. `BetterFilter.filter` and all three
  `ProductFilter` methods are instances of it. The specification classes
  become one datatype: `ColorSpec | SizeSpec | AndSpec`. `IsSatisfied`
  dispatches on it.
- **Liskov substitution** (`lishkov.dfy`, module `Lishkov`). It covers
  `Rectangle` with its mutable `width` and `height`, the `Square` subclass
  whose overridden setters write both fields, `RectangleFactory`, and the
  client `useIt`. Both Java classes are modelled by one Dafny class. A
  `const kind` records which Java class the object was created as, and the
  setters dispatch on it as Java's overriding does. The invariant `Valid()`
  says that a Square's sides are equal. Java's 32-bit `int` is the subset
  type `Int32`, and `getArea` wraps modulo 2^32 (`Wrap`).
- **Single responsibility** (`single_responsibility.dfy`, module
  `SingleResponsibility`). It covers `Journal` with its list of entries,
  `addEntry`, `removeEntry` and `toString`. Java's `static count` becomes an
  `EntryCounter` object that every journal shares. Ghost fields record the
  number and the text each entry was made from. The invariant says that the
  numbers strictly increase along the list and that none is above the
  counter, so a newly issued number is new to every journal. `Decimal`
  renders the number the way Java's `"" + n` does, and `DecimalValue` reads
  it back.

## Model

| member | source | states |
|---|---|---|
| `OpenClosed.IsSatisfied` | solid/src/com/plottwist/solid/OpenClosed.java:82-127 | A colour specification accepts an item iff the item has that colour. A size specification accepts it iff it has that size. An AND accepts it iff both halves accept it. |
| `OpenClosed.SatisfiedIffAllCriteria` | solid/src/com/plottwist/solid/OpenClosed.java:124-127 | However the ANDs are nested, a composed specification holds exactly when every single-attribute criterion in it holds. |
| `OpenClosed.StreamFilter` | solid/src/com/plottwist/solid/OpenClosed.java:103-106 | Stream filtering never makes a list longer. |
| `OpenClosed.StreamFilterMembers` | solid/src/com/plottwist/solid/OpenClosed.java:105 | An element is in the result iff it is in the input and the predicate accepts it. |
| `OpenClosed.StreamFilterCounts` | solid/src/com/plottwist/solid/OpenClosed.java:105 | Each accepted element occurs as often in the result as in the input. Each rejected element does not occur in the result. |
| `OpenClosed.StreamFilterDistributes` | solid/src/com/plottwist/solid/OpenClosed.java:105 | Filtering `a + b` gives the filter of `a` followed by the filter of `b`. So kept elements keep their input order. |
| `OpenClosed.StreamFilterExtensional` | solid/src/com/plottwist/solid/OpenClosed.java:57-68 | Two predicates that agree on every element select the same list. |
| `OpenClosed.StreamFilterConjunction` | solid/src/com/plottwist/solid/OpenClosed.java:125-127 | Filtering by a conjunction equals filtering by the first conjunct, then by the second. |
| `OpenClosed.StreamFilterIdempotent` | solid/src/com/plottwist/solid/OpenClosed.java:105 | Filtering a filtered list again by the same predicate changes nothing. |
| `OpenClosed.Filter` | solid/src/com/plottwist/solid/OpenClosed.java:103-106 | `BetterFilter.filter` returns exactly the items that satisfy the specification. The result is no longer than the input, and an empty input gives an empty result. |
| `OpenClosed.FilterDistributes` | solid/src/com/plottwist/solid/OpenClosed.java:103-106 | `BetterFilter.filter` keeps the items' relative order: filtering two halves and concatenating gives the filter of the whole. |
| `OpenClosed.FilterAndIsSequential` | solid/src/com/plottwist/solid/OpenClosed.java:124-127 | Filtering by `AndSpec(a, b)` equals filtering by `a`, then filtering that result by `b`. |
| `OpenClosed.FilterAndCommutes` | solid/src/com/plottwist/solid/OpenClosed.java:124-127 | Swapping the two halves of an AND does not change the filter result. |
| `OpenClosed.FilterAndAssociates` | solid/src/com/plottwist/solid/OpenClosed.java:109-127 | Regrouping nested ANDs does not change the filter result. |
| `OpenClosed.FilterIdempotent` | solid/src/com/plottwist/solid/OpenClosed.java:103-106 | Re-filtering a result by the same specification changes nothing. |
| `OpenClosed.FilterByColor` | solid/src/com/plottwist/solid/OpenClosed.java:57-59 | The old `filterByColor` returns exactly the input products of the given colour, and never more products than it was given. |
| `OpenClosed.FilterBySize` | solid/src/com/plottwist/solid/OpenClosed.java:61-63 | The old `filterBySize` returns exactly the input products of the given size, and never more products than it was given. |
| `OpenClosed.FilterByColorAndSize` | solid/src/com/plottwist/solid/OpenClosed.java:66-68 | The old `filterByColorAndSize` returns exactly the input products that have both the given size and the given colour, and never more products than it was given. |
| `OpenClosed.FilterByColorAgrees` | solid/src/com/plottwist/solid/OpenClosed.java:57-59 | The old `filterByColor` equals `BetterFilter.filter` with a colour specification. |
| `OpenClosed.FilterBySizeAgrees` | solid/src/com/plottwist/solid/OpenClosed.java:61-63 | The old `filterBySize` equals `BetterFilter.filter` with a size specification. |
| `OpenClosed.FilterByColorAndSizeAgrees` | solid/src/com/plottwist/solid/OpenClosed.java:66-68 | The old `filterByColorAndSize` equals `BetterFilter.filter` with `AndSpec(ColorSpec, SizeSpec)`. |
| `OpenClosed.DemoGreen` | solid/src/com/plottwist/solid/OpenClosed.java:145-149 | For the demo's Apple, Tree and House, the green products are Apple and Tree. |
| `OpenClosed.DemoBlueLarge` | solid/src/com/plottwist/solid/OpenClosed.java:151-158 | For the same products, the large blue products are just House. |
| `OpenClosed.DemoOldGreen` | solid/src/com/plottwist/solid/OpenClosed.java:141-143 | The old colour filter gives the same green products, Apple and Tree. |
| `Lishkov.Wrap` | solid/src/com/plottwist/solid/Lishkov.java:27-29 | Java `int` arithmetic: the result is in 32-bit range and congruent to the exact value modulo 2^32. It equals the exact value when that value fits. |
| `Lishkov.Rectangle.constructor` | solid/src/com/plottwist/solid/Lishkov.java:15-16 | `new Rectangle()` leaves both sides at Java's default 0. |
| `Lishkov.Rectangle.Sized` | solid/src/com/plottwist/solid/Lishkov.java:18-21 | `new Rectangle(w, h)` has exactly those sides. |
| `Lishkov.Rectangle.EmptySquare` | solid/src/com/plottwist/solid/Lishkov.java:74 | `new Square()` is a Square with both sides 0, so it satisfies the square invariant. |
| `Lishkov.Rectangle.Square` | solid/src/com/plottwist/solid/Lishkov.java:76-78 | `new Square(s)` is a Square with both sides `s`. |
| `Lishkov.Rectangle.Area` | solid/src/com/plottwist/solid/Lishkov.java:27-29 | `getArea` is `width * height` modulo 2^32 in Java's range. It is exactly `width * height` when the product fits in 32 bits. |
| `Lishkov.Rectangle.IsSquare` | solid/src/com/plottwist/solid/Lishkov.java:56-58 | `isSquare` holds iff `width == height`. So it always holds for an object created as a Square. |
| `Lishkov.Rectangle.SetWidth` | solid/src/com/plottwist/solid/Lishkov.java:84-88 | Sets the width. A Rectangle keeps its height. A Square's override also sets the height to the new width, so the square invariant is kept. |
| `Lishkov.Rectangle.SetHeight` | solid/src/com/plottwist/solid/Lishkov.java:90-94 | Sets the height. Only a Rectangle promises that its width is unchanged. A Square's override also sets the width to the new height. |
| `Lishkov.NewRectangle` | solid/src/com/plottwist/solid/Lishkov.java:61-63 | `newRectangle(w, h)` returns a fresh plain Rectangle with exactly those sides. |
| `Lishkov.NewSquare` | solid/src/com/plottwist/solid/Lishkov.java:64-66 | `newSquare(s)` returns a fresh plain Rectangle, not a Square. Both of its sides are `s`, it satisfies `isSquare`, and its area is `s * s` in Java arithmetic. |
| `Lishkov.UseIt` | solid/src/com/plottwist/solid/Lishkov.java:97-102 | After `setHeight(10)`, a Rectangle's area equals the expected old width × 10. A Square's area is always 100. Without overflow, a Square meets the expectation only if its old width was 10. |
| `Lishkov.SubstitutionDemo` | solid/src/com/plottwist/solid/Lishkov.java:104-111 | A 2×3 Rectangle gets its expected area of 20. A Square set to width 5 is expected to give 50 but gives 100. |
| `SingleResponsibility.Decimal` | solid/src/com/plottwist/solid/SingleResponsibility.java:32 | The entry number is rendered as one or more decimal digits, without a leading zero. |
| `SingleResponsibility.DecimalRoundTrip` | solid/src/com/plottwist/solid/SingleResponsibility.java:32 | Reading the rendered digits back gives the number. |
| `SingleResponsibility.DecimalInjective` | solid/src/com/plottwist/solid/SingleResponsibility.java:32 | Different numbers are rendered differently. |
| `SingleResponsibility.EntryLine` | solid/src/com/plottwist/solid/SingleResponsibility.java:32 | A stored line is the number's digits, then `:` and a space, then the text unchanged. Reading the digits back gives the number. |
| `SingleResponsibility.EntryLineInjective` | solid/src/com/plottwist/solid/SingleResponsibility.java:32 | A stored line `n: text` determines both its number and its text. |
| `SingleResponsibility.Join` | solid/src/com/plottwist/solid/SingleResponsibility.java:39-41 | Joining no entries gives `""`, and joining one entry gives that entry. Joining n entries gives their total length plus n−1 separator lengths. |
| `SingleResponsibility.JoinAppend` | solid/src/com/plottwist/solid/SingleResponsibility.java:39-41 | Appending an entry to a non-empty journal appends one separator and that entry to the text. |
| `SingleResponsibility.JoinSeparatorCount` | solid/src/com/plottwist/solid/SingleResponsibility.java:39-41 | With a one-character separator that no entry contains, n entries are joined by exactly n−1 separators. |
| `SingleResponsibility.RemoveAt` | solid/src/com/plottwist/solid/SingleResponsibility.java:35-37 | `List.remove(int)` drops the element at the index. Elements before it stay in place and elements after it move down by one. |
| `SingleResponsibility.RemovalKeepsNumbering` | solid/src/com/plottwist/solid/SingleResponsibility.java:35-37 | Removing an entry keeps the journal invariant: lines match their numbers, numbers strictly increase, and none is above the counter. |
| `SingleResponsibility.EntryCounter.constructor` | solid/src/com/plottwist/solid/SingleResponsibility.java:28 | The shared counter starts at 0. |
| `SingleResponsibility.Journal.constructor` | solid/src/com/plottwist/solid/SingleResponsibility.java:27-29 | A new journal has no entries and draws numbers from the shared counter. |
| `SingleResponsibility.Journal.AddEntry` | solid/src/com/plottwist/solid/SingleResponsibility.java:31-33 | The counter grows by exactly 1. Exactly one line, `decimal(count) + ": " + text`, is appended, and earlier entries are unchanged. |
| `SingleResponsibility.Journal.RemoveEntry` | solid/src/com/plottwist/solid/SingleResponsibility.java:35-37 | An index outside `0 <= i < size` throws and changes nothing. Otherwise the entries become `entries[..i] + entries[i+1..]`. The counter is never touched. |
| `SingleResponsibility.Journal.ToString` | solid/src/com/plottwist/solid/SingleResponsibility.java:39-41 | An empty journal gives `""`, and a single entry gives that entry. n entries give their total length plus n−1 separator lengths. |
| `SingleResponsibility.AddEntryIsNewToAll` | solid/src/com/plottwist/solid/SingleResponsibility.java:28-33 | After `addEntry` on one journal, every other journal on the same counter stays valid and holds no entry equal to the new line. No earlier entry of the same journal equals it either. |
| `SingleResponsibility.EntriesDistinct` | solid/src/com/plottwist/solid/SingleResponsibility.java:28-37 | No two entries of a journal are equal, even after removals, because numbers are never reused. |
| `SingleResponsibility.DemoLines` | solid/src/com/plottwist/solid/SingleResponsibility.java:77-78 | Entries 1, 2 and 3 are stored as `"1: Hi"`, `"2: This is awesome"` and `"3: Hi"`. |
| `SingleResponsibility.JournalDemo` | solid/src/com/plottwist/solid/SingleResponsibility.java:72-79 | On a fresh counter, the demo's two adds give `"1: Hi"` and `"2: This is awesome"`, and the journal text is those two lines joined by the separator. |
| `SingleResponsibility.SharedCounterDemo` | solid/src/com/plottwist/solid/SingleResponsibility.java:28-37 | After a removal, a second journal on the same counter continues the numbering with 3. Number 1 is not issued again. |

## Left out

- `InterfaceSegregation.java`: every method body there is empty, so there is no behaviour to model.
- `Journal.save`, the two `Journal.load` stubs and `Persistence.saveToFile`: file I/O.
- The demos' `System.out.println` output and the `notepad.exe` launch. Only the data the demos build and the values they print are modelled, as `DemoGreen`, `DemoBlueLarge`, `DemoOldGreen`, `SubstitutionDemo` and `JournalDemo`.
- Java stream laziness and restartability: a filter result is a finished sequence. Filtering cannot modify its input, because sequences are values.
- `System.lineSeparator()`: its value depends on the platform, so `Journal.ToString` takes the separator as a parameter.
- `Rectangle.getWidth` and `Rectangle.getHeight`: they are plain field reads, and the model reads `width` and `height` directly.
- `Rectangle.toString`: string formatting for display only.
- `AndSpecification<T>` is generic in Java. The model composes specifications over `Product` only, the one type the source instantiates it with. `StreamFilter` and its lemmas stay generic.
- `Journal.AddEntry`: Java's `static int count` wraps to -2147483648 on the 2^31-th entry. The model's counter is an unbounded natural, so from that entry on the model stores a different line: `"2147483648: text"` where Java stores `"-2147483648: text"`.
- Java `null`: every reference in the model (a product list, a specification, a rectangle, a journal, an entry's text) is non-null, so the `NullPointerException` paths are not modelled.
- `Lishkov.UseIt`: the statement that a Square meets the expectation only when its old width was 10 is proved only for widths whose product with 10 does not overflow. With wrap-around, one more width also gives 100.
