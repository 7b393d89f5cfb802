/** The single-responsibility demo: a journal of numbered text entries.
    Entries are numbered by a counter that Java keeps in a `static` field,
    so every journal of the program draws from the same sequence of
    numbers; here that counter is an object all journals share. */
module SingleResponsibility {

  // ---------------------------------------------------------------------
  // Decimal rendering of the entry number (Java's `"" + n`)
  // ---------------------------------------------------------------------

  predicate IsDigit(c: char)
  {
    '0' <= c <= '9'
  }

  function DigitChar(d: nat): (c: char)
    requires d < 10
    ensures IsDigit(c) && c as int - '0' as int == d
  {
    ('0' as int + d) as char
  }

  function DigitValue(c: char): nat
    requires IsDigit(c)
  {
    c as int - '0' as int
  }

  /** The decimal digits of `n`, most significant first, without leading zeros. */
  function Decimal(n: nat): (s: string)
    ensures |s| >= 1
    ensures forall i :: 0 <= i < |s| ==> IsDigit(s[i])
    ensures s[0] == '0' ==> s == "0"
  {
    if n < 10 then [DigitChar(n)] else Decimal(n / 10) + [DigitChar(n % 10)]
  }

  /** The number a string of decimal digits stands for. */
  function DecimalValue(s: string): nat
    requires forall i :: 0 <= i < |s| ==> IsDigit(s[i])
  {
    if s == [] then 0
    else DecimalValue(s[..|s| - 1]) * 10 + DigitValue(s[|s| - 1])
  }

  /** Reading back the rendering of `n` gives `n`. */
  lemma {:induction false} DecimalRoundTrip(n: nat)
    ensures DecimalValue(Decimal(n)) == n
  {
    if n >= 10 {
      var s := Decimal(n);
      assert s[..|s| - 1] == Decimal(n / 10);
      DecimalRoundTrip(n / 10);
    }
  }

  /** Different numbers render differently. */
  lemma DecimalInjective(m: nat, n: nat)
    requires Decimal(m) == Decimal(n)
    ensures m == n
  {
    DecimalRoundTrip(m);
    DecimalRoundTrip(n);
  }

  // ---------------------------------------------------------------------
  // Entry lines
  // ---------------------------------------------------------------------

  /** The line `addEntry` stores: the digits of the number, then a colon
      and a space, then the text unchanged. */
  function EntryLine(number: nat, text: string): (line: string)
    ensures |line| == |Decimal(number)| + 2 + |text|
    ensures forall i :: 0 <= i < |Decimal(number)| ==> IsDigit(line[i])
    ensures line[|Decimal(number)|] == ':' && line[|Decimal(number)| + 1] == ' '
    ensures DecimalValue(line[..|Decimal(number)|]) == number
    ensures line[|Decimal(number)| + 2..] == text
  {
    var digits := Decimal(number);
    DecimalRoundTrip(number);
    assert (digits + ": " + text)[..|digits|] == digits;
    digits + ": " + text
  }

  /** A line determines the number and the text it was made from. */
  lemma EntryLineInjective(m: nat, t: string, n: nat, u: string)
    requires EntryLine(m, t) == EntryLine(n, u)
    ensures m == n && t == u
  {
    var line := EntryLine(m, t);
    var a, b := Decimal(m), Decimal(n);
    if |a| < |b| {
      assert false;
    }
    if |b| < |a| {
      assert false;
    }
    assert a == line[..|a|] == b;
    DecimalInjective(m, n);
    assert t == line[|a| + 2..] == u;
  }

  // ---------------------------------------------------------------------
  // Joining the entries (Java's String.join)
  // ---------------------------------------------------------------------

  function TotalLength(parts: seq<string>): nat
  {
    if parts == [] then 0 else |parts[0]| + TotalLength(parts[1..])
  }

  /** The parts in order with `separator` between each two neighbours. */
  function Join(parts: seq<string>, separator: string): (r: string)
    ensures parts == [] ==> r == ""
    ensures |parts| == 1 ==> r == parts[0]
    ensures parts != [] ==> |r| == TotalLength(parts) + (|parts| - 1) * |separator|
  {
    if parts == [] then ""
    else if |parts| == 1 then parts[0]
    else parts[0] + separator + Join(parts[1..], separator)
  }

  /** Appending a part to a non-empty list appends the separator and the part. */
  lemma {:induction false} JoinAppend(parts: seq<string>, last: string, separator: string)
    requires parts != []
    ensures Join(parts + [last], separator) == Join(parts, separator) + separator + last
  {
    if |parts| > 1 {
      assert (parts + [last])[1..] == parts[1..] + [last];
      JoinAppend(parts[1..], last, separator);
    } else {
      assert (parts + [last])[1..] == [last];
    }
  }

  /** How many times `c` occurs in `s`. */
  function Occurrences(s: string, c: char): nat
  {
    if s == [] then 0 else (if s[0] == c then 1 else 0) + Occurrences(s[1..], c)
  }

  lemma {:induction false} OccurrencesConcat(s: string, t: string, c: char)
    ensures Occurrences(s + t, c) == Occurrences(s, c) + Occurrences(t, c)
  {
    if s != [] {
      assert (s + t)[1..] == s[1..] + t;
      OccurrencesConcat(s[1..], t, c);
    } else {
      assert s + t == t;
    }
  }

  /** With a one-character separator that no part contains, n parts are
      joined by exactly n - 1 separators. */
  lemma {:induction false} JoinSeparatorCount(parts: seq<string>, separator: char)
    requires parts != []
    requires forall i :: 0 <= i < |parts| ==> Occurrences(parts[i], separator) == 0
    ensures Occurrences(Join(parts, [separator]), separator) == |parts| - 1
  {
    if |parts| > 1 {
      JoinSeparatorCount(parts[1..], separator);
      OccurrencesConcat(parts[0] + [separator], Join(parts[1..], [separator]), separator);
      OccurrencesConcat(parts[0], [separator], separator);
      assert Occurrences([separator], separator) == 1 by {
        assert [separator][1..] == [];
      }
    }
  }

  // ---------------------------------------------------------------------
  // The journal
  // ---------------------------------------------------------------------

  /** Java's `List.remove(int)` on a valid index: the element at `index`
      goes, the ones after it move down by one. */
  function RemoveAt<T>(s: seq<T>, index: nat): (r: seq<T>)
    requires index < |s|
    ensures |r| == |s| - 1
    ensures forall k :: 0 <= k < |r| ==> r[k] == s[if k < index then k else k + 1]
  {
    s[..index] + s[index + 1..]
  }

  /** The journal's invariant on plain values: each entry is the line of
      its number and text, the numbers strictly increase along the list,
      and none is above `bound`, the last number given out. */
  ghost predicate WellNumbered(entries: seq<string>, numbers: seq<nat>, texts: seq<string>, bound: nat)
  {
    && |numbers| == |entries| == |texts|
    && (forall i :: 0 <= i < |entries| ==> entries[i] == EntryLine(numbers[i], texts[i]))
    && (forall i, j :: 0 <= i < j < |numbers| ==> numbers[i] < numbers[j])
    && (forall i :: 0 <= i < |numbers| ==> 0 < numbers[i] <= bound)
  }

  /** Removing one entry, with its number and text, keeps the invariant. */
  lemma RemovalKeepsNumbering(entries: seq<string>, numbers: seq<nat>, texts: seq<string>, bound: nat, index: nat)
    requires WellNumbered(entries, numbers, texts, bound)
    requires index < |entries|
    ensures WellNumbered(RemoveAt(entries, index), RemoveAt(numbers, index), RemoveAt(texts, index), bound)
  {
  }

  /** Java's `static int count`: one per program, shared by every journal. */
  class EntryCounter {
    var count: nat

    /** The field's initial value when the class is loaded. */
    constructor ()
      ensures count == 0
    {
      count := 0;
    }
  }

  class Journal {
    const counter: EntryCounter
    var entries: seq<string>
    /** The number and the text each entry was made from. */
    ghost var numbers: seq<nat>
    ghost var texts: seq<string>

    /** Each entry is the line of its number and text; the numbers
        strictly increase along the list, and none is above the counter,
        so the counter's next number is new to every journal. */
    ghost predicate Valid()
      reads this, counter
    {
      WellNumbered(entries, numbers, texts, counter.count)
    }

    /** `new Journal()`: no entries, numbered from the shared counter. */
    constructor (counter: EntryCounter)
      ensures Valid() && this.counter == counter
      ensures entries == [] && numbers == [] && texts == []
    {
      this.counter := counter;
      entries, numbers, texts := [], [], [];
    }

    /** `addEntry`: the counter goes up by one and the line with the new
        number is appended; earlier entries stay as they were. */
    method AddEntry(text: string)
      requires Valid()
      modifies this, counter
      ensures Valid()
      ensures counter.count == old(counter.count) + 1
      ensures entries == old(entries) + [EntryLine(counter.count, text)]
      ensures numbers == old(numbers) + [counter.count] && texts == old(texts) + [text]
    {
      counter.count := counter.count + 1;
      entries := entries + [EntryLine(counter.count, text)];
      numbers := numbers + [counter.count];
      texts := texts + [text];
    }

    /** `removeEntry`: an index outside the list throws (Java's
        IndexOutOfBoundsException) and changes nothing; otherwise the entry
        at `index` is removed and the others keep their order. The counter
        is left alone, so a removed number is never given out again. */
    method RemoveEntry(index: int) returns (outOfBounds: bool)
      requires Valid()
      modifies this
      ensures Valid()
      ensures outOfBounds <==> !(0 <= index < |old(entries)|)
      ensures outOfBounds ==> entries == old(entries) && numbers == old(numbers) && texts == old(texts)
      ensures !outOfBounds ==>
                && entries == RemoveAt(old(entries), index)
                && numbers == RemoveAt(old(numbers), index)
                && texts == RemoveAt(old(texts), index)
    {
      outOfBounds := !(0 <= index < |entries|);
      if !outOfBounds {
        RemovalKeepsNumbering(entries, numbers, texts, counter.count, index);
        entries := RemoveAt(entries, index);
        numbers := RemoveAt(numbers, index);
        texts := RemoveAt(texts, index);
      }
    }

    /** `toString`: the entries joined by the line separator; an empty
        journal gives the empty string, a single entry gives that entry, and
        n entries give their characters and n - 1 separators. */
    function ToString(lineSeparator: string): (r: string)
      reads this
      ensures entries == [] ==> r == ""
      ensures |entries| == 1 ==> r == entries[0]
      ensures entries != [] ==> |r| == TotalLength(entries) + (|entries| - 1) * |lineSeparator|
    {
      Join(entries, lineSeparator)
    }
  }

  /** No two entries of a journal are alike, even after removals. */
  lemma EntriesDistinct(j: Journal)
    requires j.Valid()
    ensures forall i, k :: 0 <= i < k < |j.entries| ==> j.entries[i] != j.entries[k]
  {
    forall i, k | 0 <= i < k < |j.entries|
      ensures j.entries[i] != j.entries[k]
    {
      if j.entries[i] == j.entries[k] {
        EntryLineInjective(j.numbers[i], j.texts[i], j.numbers[k], j.texts[k]);
      }
    }
  }

  /** The counter's next number is new to every journal sharing it: after
      `j.addEntry`, another journal `k` on the same counter is still valid
      and holds no entry equal to the one just added, and neither does `j`
      among its earlier entries. */
  method AddEntryIsNewToAll(j: Journal, k: Journal, text: string)
    requires j != k && j.counter == k.counter
    requires j.Valid() && k.Valid()
    modifies j, j.counter
    ensures j.Valid() && k.Valid()
    ensures j.entries == old(j.entries) + [EntryLine(j.counter.count, text)]
    ensures forall e :: e in k.entries ==> e != j.entries[|j.entries| - 1]
    ensures forall e :: e in old(j.entries) ==> e != j.entries[|j.entries| - 1]
  {
    ghost var before := j.entries;
    j.AddEntry(text);
    var added := j.entries[|j.entries| - 1];
    forall e | e in k.entries
      ensures e != added
    {
      var i :| 0 <= i < |k.entries| && k.entries[i] == e;
      if e == added {
        EntryLineInjective(k.numbers[i], k.texts[i], j.counter.count, text);
      }
    }
    forall e | e in before
      ensures e != added
    {
      var i :| 0 <= i < |before| && before[i] == e;
      assert j.entries[i] == e;
      if e == added {
        EntryLineInjective(j.numbers[i], j.texts[i], j.counter.count, text);
      }
    }
  }

  /** The lines the demo's entries are stored as. */
  lemma DemoLines()
    ensures EntryLine(1, "Hi") == "1: Hi"
    ensures EntryLine(2, "This is awesome") == "2: This is awesome"
    ensures EntryLine(3, "Hi") == "3: Hi"
  {
  }

  /** `Demo.main` without the file and the editor: two entries on a fresh
      counter, and the journal's text with a given line separator. */
  method JournalDemo(lineSeparator: string) returns (lines: seq<string>, text: string)
    ensures lines == ["1: Hi", "2: This is awesome"]
    ensures text == "1: Hi" + lineSeparator + "2: This is awesome"
  {
    var counter := new EntryCounter();
    var j := new Journal(counter);
    j.AddEntry("Hi");
    j.AddEntry("This is awesome");
    DemoLines();
    lines := j.entries;
    text := j.ToString(lineSeparator);
  }

  /** The counter is shared: a second journal continues the first one's
      numbering, and a removal does not free a number. */
  method SharedCounterDemo() returns (first: seq<string>, second: seq<string>)
    ensures first == ["2: This is awesome"]
    ensures second == ["3: Hi"]
  {
    var counter := new EntryCounter();
    var j := new Journal(counter);
    j.AddEntry("Hi");
    j.AddEntry("This is awesome");
    var thrown := j.RemoveEntry(0);
    var k := new Journal(counter);
    k.AddEntry("Hi");
    DemoLines();
    first, second := j.entries, k.entries;
  }
}
