/** The open/closed demo: products, specifications over them, and the
    filters that select the products a specification accepts.
    Java's `Stream.filter` is modelled once, as StreamFilter; the new
    BetterFilter and the three hard-coded ProductFilter methods are all
    instances of it. */
module OpenClosed {

  datatype Color = Red | Green | Blue

  datatype Size = Small | Medium | Large | Huge

  datatype Product = Product(name: string, color: Color, size: Size)

  /** The Specification interface and its three implementations. */
  datatype Specification =
    | ColorSpec(color: Color)
    | SizeSpec(size: Size)
    | AndSpec(first: Specification, second: Specification)

  /** `isSatisfied` of each implementation, dispatched on the variant:
      a ColorSpecification accepts exactly the products of its colour, a
      SizeSpecification exactly those of its size, and an
      AndSpecification exactly those that both of its parts accept. */
  function IsSatisfied(spec: Specification, item: Product): (r: bool)
    ensures spec.ColorSpec? ==> (r <==> item.color == spec.color)
    ensures spec.SizeSpec? ==> (r <==> item.size == spec.size)
    ensures spec.AndSpec? ==> (r <==> IsSatisfied(spec.first, item) && IsSatisfied(spec.second, item))
  {
    match spec
    case ColorSpec(c) => item.color == c
    case SizeSpec(s) => item.size == s
    case AndSpec(a, b) => IsSatisfied(a, item) && IsSatisfied(b, item)
  }

  /** The single-attribute criteria an AND-composition is built from,
      left to right. */
  function Criteria(spec: Specification): seq<Specification>
  {
    match spec
    case AndSpec(a, b) => Criteria(a) + Criteria(b)
    case _ => [spec]
  }

  /** However the ANDs are nested, a composed specification holds exactly
      when every one of its single-attribute criteria holds. */
  lemma {:induction false} SatisfiedIffAllCriteria(spec: Specification, item: Product)
    ensures forall c :: c in Criteria(spec) ==> !c.AndSpec?
    ensures IsSatisfied(spec, item) <==> forall c :: c in Criteria(spec) ==> IsSatisfied(c, item)
  {
    match spec
    case AndSpec(a, b) =>
      SatisfiedIffAllCriteria(a, item);
      SatisfiedIffAllCriteria(b, item);
    case _ =>
  }

  // ---------------------------------------------------------------------
  // Java's Stream.filter on a finished sequence
  // ---------------------------------------------------------------------

  /** The elements of `items` for which `keep` holds, in their order. */
  function StreamFilter<T>(items: seq<T>, keep: T -> bool): (r: seq<T>)
    ensures |r| <= |items|
  {
    if items == [] then []
    else
      var rest := StreamFilter(items[1..], keep);
      if keep(items[0]) then [items[0]] + rest else rest
  }

  /** An element is in the result exactly when it is in `items` and
      `keep` accepts it. */
  lemma {:induction false} StreamFilterMembers<T>(items: seq<T>, keep: T -> bool)
    ensures forall x :: x in StreamFilter(items, keep) <==> x in items && keep(x)
  {
    if items != [] {
      StreamFilterMembers(items[1..], keep);
      assert items == [items[0]] + items[1..];
    }
  }

  /** Each accepted element occurs as often in the result as in `items`,
      and each rejected one not at all. */
  lemma {:induction false} StreamFilterCounts<T>(items: seq<T>, keep: T -> bool, x: T)
    ensures multiset(StreamFilter(items, keep))[x] == if keep(x) then multiset(items)[x] else 0
  {
    if items != [] {
      StreamFilterCounts(items[1..], keep, x);
      assert items == [items[0]] + items[1..];
    }
  }

  /** Filtering a list with one more element in front. */
  lemma StreamFilterCons<T>(x: T, items: seq<T>, keep: T -> bool)
    ensures StreamFilter([x] + items, keep)
         == (if keep(x) then [x] else []) + StreamFilter(items, keep)
  {
  }

  /** Filtering a concatenation filters each part and concatenates the
      results in the same order: the relative order of the kept elements
      is the order they have in `items`. */
  lemma {:induction false} StreamFilterDistributes<T>(a: seq<T>, b: seq<T>, keep: T -> bool)
    ensures StreamFilter(a + b, keep) == StreamFilter(a, keep) + StreamFilter(b, keep)
  {
    if a == [] {
      assert a + b == b;
    } else {
      var x, rest := a[0], a[1..];
      assert a == [x] + rest;
      assert a + b == [x] + (rest + b);
      StreamFilterCons(x, rest + b, keep);
      StreamFilterCons(x, rest, keep);
      StreamFilterDistributes(rest, b, keep);
    }
  }

  /** Two predicates that agree on every element filter alike. */
  lemma {:induction false} StreamFilterExtensional<T>(items: seq<T>, f: T -> bool, g: T -> bool)
    requires forall x :: f(x) == g(x)
    ensures StreamFilter(items, f) == StreamFilter(items, g)
  {
    if items != [] {
      StreamFilterExtensional(items[1..], f, g);
    }
  }

  /** Filtering by a conjunction is filtering by each conjunct in turn. */
  lemma {:induction false} StreamFilterConjunction<T>(items: seq<T>, both: T -> bool, f: T -> bool, g: T -> bool)
    requires forall x :: both(x) == (f(x) && g(x))
    ensures StreamFilter(items, both) == StreamFilter(StreamFilter(items, f), g)
  {
    if items != [] {
      StreamFilterConjunction(items[1..], both, f, g);
    }
  }

  /** Filtering a filtered sequence again by the same predicate changes nothing. */
  lemma {:induction false} StreamFilterIdempotent<T>(items: seq<T>, keep: T -> bool)
    ensures StreamFilter(StreamFilter(items, keep), keep) == StreamFilter(items, keep)
  {
    if items != [] {
      StreamFilterIdempotent(items[1..], keep);
    }
  }

  // ---------------------------------------------------------------------
  // BetterFilter
  // ---------------------------------------------------------------------

  /** BetterFilter.filter: the items that satisfy `spec`. */
  function Filter(items: seq<Product>, spec: Specification): (r: seq<Product>)
    ensures |r| <= |items|
    ensures items == [] ==> r == []
    ensures forall p :: p in r ==> p in items && IsSatisfied(spec, p)
    ensures forall p :: p in items && IsSatisfied(spec, p) ==> p in r
  {
    StreamFilterMembers(items, p => IsSatisfied(spec, p));
    StreamFilter(items, p => IsSatisfied(spec, p))
  }

  /** Filter keeps the relative order of the items: filtering the two
      halves of a list and concatenating the results in the same order
      gives the filter of the whole list. */
  lemma FilterDistributes(a: seq<Product>, b: seq<Product>, spec: Specification)
    ensures Filter(a + b, spec) == Filter(a, spec) + Filter(b, spec)
  {
    StreamFilterDistributes(a, b, p => IsSatisfied(spec, p));
  }

  /** AND as sequential filtering. */
  lemma FilterAndIsSequential(items: seq<Product>, a: Specification, b: Specification)
    ensures Filter(items, AndSpec(a, b)) == Filter(Filter(items, a), b)
  {
    StreamFilterConjunction(items, p => IsSatisfied(AndSpec(a, b), p),
      p => IsSatisfied(a, p), p => IsSatisfied(b, p));
  }

  /** The order of the two halves of an AND does not change the result. */
  lemma FilterAndCommutes(items: seq<Product>, a: Specification, b: Specification)
    ensures Filter(items, AndSpec(a, b)) == Filter(items, AndSpec(b, a))
  {
    StreamFilterExtensional(items, p => IsSatisfied(AndSpec(a, b), p),
      (p: Product) => IsSatisfied(AndSpec(b, a), p));
  }

  /** Nesting of ANDs does not change the result. */
  lemma FilterAndAssociates(items: seq<Product>, a: Specification, b: Specification, c: Specification)
    ensures Filter(items, AndSpec(AndSpec(a, b), c)) == Filter(items, AndSpec(a, AndSpec(b, c)))
  {
    forall p ensures IsSatisfied(AndSpec(AndSpec(a, b), c), p) == IsSatisfied(AndSpec(a, AndSpec(b, c)), p) {
      assert IsSatisfied(AndSpec(a, b), p) == (IsSatisfied(a, p) && IsSatisfied(b, p));
      assert IsSatisfied(AndSpec(b, c), p) == (IsSatisfied(b, p) && IsSatisfied(c, p));
    }
    StreamFilterExtensional(items, p => IsSatisfied(AndSpec(AndSpec(a, b), c), p),
      (p: Product) => IsSatisfied(AndSpec(a, AndSpec(b, c)), p));
  }

  /** Re-filtering a result by the same specification changes nothing. */
  lemma FilterIdempotent(items: seq<Product>, spec: Specification)
    ensures Filter(Filter(items, spec), spec) == Filter(items, spec)
  {
    StreamFilterIdempotent(items, p => IsSatisfied(spec, p));
  }

  // ---------------------------------------------------------------------
  // ProductFilter: the hard-coded filters the specifications replace
  // ---------------------------------------------------------------------

  /** `filterByColor`: the products of the given colour, in their order. */
  function FilterByColor(products: seq<Product>, color: Color): (r: seq<Product>)
    ensures |r| <= |products|
    ensures forall p :: p in r <==> p in products && p.color == color
  {
    StreamFilterMembers(products, (p: Product) => p.color == color);
    StreamFilter(products, (p: Product) => p.color == color)
  }

  /** `filterBySize`: the products of the given size, in their order. */
  function FilterBySize(products: seq<Product>, size: Size): (r: seq<Product>)
    ensures |r| <= |products|
    ensures forall p :: p in r <==> p in products && p.size == size
  {
    StreamFilterMembers(products, (p: Product) => p.size == size);
    StreamFilter(products, (p: Product) => p.size == size)
  }

  /** `filterByColorAndSize`: the products of both the given size and the
      given colour, in their order. */
  function FilterByColorAndSize(products: seq<Product>, color: Color, size: Size): (r: seq<Product>)
    ensures |r| <= |products|
    ensures forall p :: p in r <==> p in products && p.size == size && p.color == color
  {
    StreamFilterMembers(products, (p: Product) => p.size == size && p.color == color);
    StreamFilter(products, (p: Product) => p.size == size && p.color == color)
  }

  lemma FilterByColorAgrees(products: seq<Product>, color: Color)
    ensures FilterByColor(products, color) == Filter(products, ColorSpec(color))
  {
    StreamFilterExtensional(products, (p: Product) => p.color == color,
      (p: Product) => IsSatisfied(ColorSpec(color), p));
  }

  lemma FilterBySizeAgrees(products: seq<Product>, size: Size)
    ensures FilterBySize(products, size) == Filter(products, SizeSpec(size))
  {
    StreamFilterExtensional(products, (p: Product) => p.size == size,
      (p: Product) => IsSatisfied(SizeSpec(size), p));
  }

  lemma FilterByColorAndSizeAgrees(products: seq<Product>, color: Color, size: Size)
    ensures FilterByColorAndSize(products, color, size)
         == Filter(products, AndSpec(ColorSpec(color), SizeSpec(size)))
  {
    forall p: Product ensures (p.size == size && p.color == color) == IsSatisfied(AndSpec(ColorSpec(color), SizeSpec(size)), p) {
      assert IsSatisfied(ColorSpec(color), p) == (p.color == color);
      assert IsSatisfied(SizeSpec(size), p) == (p.size == size);
    }
    StreamFilterExtensional(products, (p: Product) => p.size == size && p.color == color,
      (p: Product) => IsSatisfied(AndSpec(ColorSpec(color), SizeSpec(size)), p));
  }

  // ---------------------------------------------------------------------
  // The demo's data
  // ---------------------------------------------------------------------

  const Apple := Product("Apple", Green, Small)
  const Tree := Product("Tree", Green, Large)
  const House := Product("House", Blue, Large)

  /** The demo's single-criterion query: the green products. */
  lemma DemoGreen()
    ensures Filter([Apple, Tree, House], ColorSpec(Green)) == [Apple, Tree]
  {
    var green := ColorSpec(Green);
    assert Filter([Apple], green) == [Apple];
    assert Filter([Tree], green) == [Tree];
    assert Filter([House], green) == [];
    FilterDistributes([Apple], [Tree], green);
    assert [Apple] + [Tree] == [Apple, Tree];
    FilterDistributes([Apple, Tree], [House], green);
    assert [Apple, Tree] + [House] == [Apple, Tree, House];
  }

  /** The demo's combined query: the large blue products. */
  lemma DemoBlueLarge()
    ensures Filter([Apple, Tree, House], AndSpec(ColorSpec(Blue), SizeSpec(Large))) == [House]
  {
    var blueLarge := AndSpec(ColorSpec(Blue), SizeSpec(Large));
    assert Filter([Apple], blueLarge) == [];
    assert Filter([Tree], blueLarge) == [];
    assert Filter([House], blueLarge) == [House];
    FilterDistributes([Apple], [Tree], blueLarge);
    assert [Apple] + [Tree] == [Apple, Tree];
    FilterDistributes([Apple, Tree], [House], blueLarge);
    assert [Apple, Tree] + [House] == [Apple, Tree, House];
  }

  /** The demo's old-style query gives the same green products. */
  lemma DemoOldGreen()
    ensures FilterByColor([Apple, Tree, House], Green) == [Apple, Tree]
  {
    FilterByColorAgrees([Apple, Tree, House], Green);
    DemoGreen();
  }
}
