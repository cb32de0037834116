/**
  The posting-sales accumulator (src/ozon_posting_sales.rs): pages of postings are
  folded into per-SKU rows, per-status maps and totals with checked u64 addition.
  The specification is a weighted sum over the absorbed product lines.
 */
module PostingSales {
  import opened Common
  import opened Decimal

  const U64_MAX: nat := 0xFFFF_FFFF_FFFF_FFFF
  const MAX_CURSOR_BYTES: nat := 4_096
  const MAX_POSTING_NUMBER_BYTES: nat := 256
  const MAX_STATUS_BYTES: nat := 128
  const MAX_POSTINGS_PER_PAGE: nat := 100
  const MAX_PRODUCTS_PER_PAGE: nat := 10_000
  const MAX_AGGREGATED_SKUS: nat := 5_000
  const CANCELLED: string := "cancelled"

  datatype Scheme = Fbo | Fbs
  datatype Error = Shape | Value | TooManyRows | DuplicatePosting | Overflow

  /** A parsed JSON value; `Fraction` is any number that is not an integer literal. */
  datatype Json =
    | Null
    | Bool(b: bool)
    | Int(n: int)
    | Fraction
    | Str(s: string)
    | Arr(items: seq<Json>)
    | Obj(fields: map<string, Json>)

  // ----- Field readers -----

  /** `str::parse::<u64>`: an optional plus sign and at least one digit, within range. */
  function ParseU64(s: string): (n: Option<nat>)
  {
    var digits := if "+" <= s then s[1..] else s;
    if |digits| == 0 || !AllDigits(digits) then None
    else if DecimalValue(digits) > U64_MAX then None
    else Some(DecimalValue(digits))
  }

  function PositiveU64Field(fields: map<string, Json>, name: string): (r: Result<nat, Error>)
    ensures r.Ok? ==> 0 < r.value <= U64_MAX
  {
    if name !in fields then Err(Shape)
    else
      var parsed := match fields[name]
        case Int(n) => if 0 <= n <= U64_MAX then Some(n) else None
        case Str(s) => ParseU64(s)
        case _ => None;
      if parsed.Some? && parsed.value > 0 then Ok(parsed.value) else Err(Value)
  }

  function ArrayField(fields: map<string, Json>, name: string): (r: Result<seq<Json>, Error>)
  {
    if name in fields && fields[name].Arr? then Ok(fields[name].items) else Err(Shape)
  }

  predicate ValidStatus(c: char)
  {
    IsDigit(c) || 'a' <= c <= 'z' || 'A' <= c <= 'Z' || c == '-' || c == '_'
  }

  predicate ValidIdentifier(c: char)
  {
    ValidStatus(c) || c == '.' || c == '/'
  }

  function BoundedStringField(fields: map<string, Json>, name: string, max: nat, valid: char -> bool): (r: Result<string, Error>)
  {
    if name in fields && fields[name].Str? && 0 < |fields[name].s| <= max &&
       (forall i :: 0 <= i < |fields[name].s| ==> valid(fields[name].s[i]))
    then Ok(fields[name].s) else Err(Value)
  }

  function Utf8Length(s: string): (n: nat)
  {
    if s == [] then 0
    else
      var c := s[0] as int;
      (if c < 0x80 then 1 else if c < 0x800 then 2 else if c < 0x1_0000 then 3 else 4) + Utf8Length(s[1..])
  }

  predicate CursorIsSafe(cursor: string)
  {
    Utf8Length(cursor) <= MAX_CURSOR_BYTES &&
    forall i :: 0 <= i < |cursor| ==> cursor[i] >= ' ' && cursor[i] as int != 0x7f
  }

  function NextCursor(root: map<string, Json>): (r: Result<Option<string>, Error>)
  {
    if "has_next" !in root || !root["has_next"].Bool? || "cursor" !in root || !root["cursor"].Str? then Err(Shape)
    else
      var cursor := root["cursor"].s;
      if root["has_next"].b then
        if cursor == "" || !CursorIsSafe(cursor) then Err(Value) else Ok(Some(cursor))
      else if CursorIsSafe(cursor) then Ok(None)
      else Err(Value)
  }

  // ----- What a page says, independently of any accumulator -----

  datatype Product = Product(sku: nat, quantity: nat)
  datatype Posting = Posting(number: string, status: string, products: seq<Product>)
  datatype Shipment = Shipment(scheme: Scheme, posting: Posting)
  datatype Page = Page(postings: seq<Posting>, next: Option<string>)

  function DecodeProduct(product: Json): (r: Result<Product, Error>)
    ensures r.Ok? ==> 0 < r.value.quantity <= U64_MAX
  {
    if !product.Obj? then Err(Shape)
    else match PositiveU64Field(product.fields, "sku")
      case Err(e) => Err(e)
      case Ok(sku) =>
        match PositiveU64Field(product.fields, "quantity")
        case Err(e) => Err(e)
        case Ok(quantity) => Ok(Product(sku, quantity))
  }

  predicate AllProductsDecode(products: seq<Json>)
  {
    forall i :: 0 <= i < |products| ==> DecodeProduct(products[i]).Ok?
  }

  function DecodedProducts(products: seq<Json>): (r: seq<Product>)
    requires AllProductsDecode(products)
    ensures |r| == |products|
    ensures forall i :: 0 <= i < |r| ==> r[i] == DecodeProduct(products[i]).value
  {
    seq(|products|, i requires 0 <= i < |products| => DecodeProduct(products[i]).value)
  }

  function DecodePosting(posting: Json): (r: Option<Posting>)
  {
    if !posting.Obj? then None
    else
      var number := BoundedStringField(posting.fields, "posting_number", MAX_POSTING_NUMBER_BYTES, ValidIdentifier);
      var status := BoundedStringField(posting.fields, "status", MAX_STATUS_BYTES, ValidStatus);
      var products := ArrayField(posting.fields, "products");
      if number.Err? || status.Err? || products.Err? || !AllProductsDecode(products.value) then None
      else Some(Posting(number.value, status.value, DecodedProducts(products.value)))
  }

  predicate AllPostingsDecode(postings: seq<Json>)
  {
    forall i :: 0 <= i < |postings| ==> DecodePosting(postings[i]).Some?
  }

  function DecodedPostings(postings: seq<Json>): (r: seq<Posting>)
    requires AllPostingsDecode(postings)
    ensures |r| == |postings|
    ensures forall i :: 0 <= i < |r| ==> r[i] == DecodePosting(postings[i]).value
  {
    seq(|postings|, i requires 0 <= i < |postings| => DecodePosting(postings[i]).value)
  }

  function ProductCount(postings: seq<Posting>): (n: nat)
  {
    if postings == [] then 0 else ProductCount(postings[..|postings| - 1]) + |postings[|postings| - 1].products|
  }

  /** A page is well formed when every field reads back and its sizes are within the page limits. */
  function DecodePage(response: Json): (r: Option<Page>)
  {
    if !response.Obj? then None
    else
      var postings := ArrayField(response.fields, "postings");
      var next := NextCursor(response.fields);
      if postings.Err? || next.Err? || |postings.value| > MAX_POSTINGS_PER_PAGE || !AllPostingsDecode(postings.value) then None
      else
        var decoded := DecodedPostings(postings.value);
        if ProductCount(decoded) > MAX_PRODUCTS_PER_PAGE then None else Some(Page(decoded, next.value))
  }

  // ----- What a page says, from the JSON alone -----

  /** A JSON value denotes a number: the integer itself, or a numeral for it with an optional plus sign. */
  ghost predicate Denotes(value: Json, n: nat)
  {
    value == Int(n) || (value.Str? && (IsNumeral(value.s, n) || ("+" <= value.s && IsNumeral(value.s[1..], n))))
  }

  /** The member of this name denotes this positive 64-bit number. */
  ghost predicate SaysNumber(fields: map<string, Json>, name: string, n: nat)
  {
    name in fields && 0 < n <= 18_446_744_073_709_551_615 && Denotes(fields[name], n)
  }

  ghost predicate SaysProduct(product: Json, p: Product)
  {
    product.Obj? && SaysNumber(product.fields, "sku", p.sku) && SaysNumber(product.fields, "quantity", p.quantity)
  }

  predicate IsAlphanumeric(c: char)
  {
    IsDigit(c) || 'a' <= c <= 'z' || 'A' <= c <= 'Z'
  }

  /** The member of this name is this text, non-empty, within the limit, of letters, digits and these marks. */
  predicate SaysText(fields: map<string, Json>, name: string, max: nat, marks: string, text: string)
  {
    && name in fields && fields[name] == Str(text) && 1 <= |text| <= max
    && forall i :: 0 <= i < |text| ==> IsAlphanumeric(text[i]) || text[i] in marks
  }

  ghost predicate SaysPosting(posting: Json, p: Posting)
  {
    && posting.Obj?
    && SaysText(posting.fields, "posting_number", 256, "-_./", p.number)
    && SaysText(posting.fields, "status", 128, "-_", p.status)
    && "products" in posting.fields && posting.fields["products"].Arr?
    && var items := posting.fields["products"].items;
       |items| == |p.products| && forall i :: 0 <= i < |items| ==> SaysProduct(items[i], p.products[i])
  }

  /** Another page follows exactly when `has_next` is true, at a cursor that must not be empty; either way the cursor is safe. */
  predicate SaysNext(root: map<string, Json>, next: Option<string>)
  {
    && "has_next" in root && root["has_next"].Bool? && "cursor" in root && root["cursor"].Str?
    && var cursor := root["cursor"].s;
       && Utf8Length(cursor) <= 4_096 && (forall i :: 0 <= i < |cursor| ==> ' ' <= cursor[i] != '\U{007F}')
       && if root["has_next"].b then next == Some(cursor) && cursor != [] else next.None?
  }

  ghost predicate SaysPage(response: Json, page: Page)
  {
    && response.Obj? && "postings" in response.fields && response.fields["postings"].Arr?
    && SaysNext(response.fields, page.next)
    && ProductCount(page.postings) <= 10_000
    && var items := response.fields["postings"].items;
       |items| == |page.postings| <= 100 && forall i :: 0 <= i < |items| ==> SaysPosting(items[i], page.postings[i])
  }

  /** Text parses to a number exactly when it is a numeral for it, behind an optional plus sign. */
  lemma ParsesExactlyNumerals(s: string, n: nat)
    ensures ParseU64(s) == Some(n) <==>
            n <= U64_MAX && (IsNumeral(s, n) || ("+" <= s && IsNumeral(s[1..], n)))
  {
    NumeralsAreDigitStrings(s, n);
    if "+" <= s {
      assert s[0] == '+' && !AllDigits(s);
      NumeralsAreDigitStrings(s[1..], n);
    }
  }

  lemma NumbersAreReadExactly(fields: map<string, Json>, name: string, n: nat)
    ensures PositiveU64Field(fields, name) == Ok(n) <==> SaysNumber(fields, name, n)
  {
    if name in fields && fields[name].Str? {
      ParsesExactlyNumerals(fields[name].s, n);
    }
  }

  /** A product is accepted exactly when its two members denote positive numbers, and each member lands in its own field. */
  lemma ProductsAreReadExactly(product: Json, p: Product)
    ensures DecodeProduct(product) == Ok(p) <==> SaysProduct(product, p)
  {
    if product.Obj? {
      NumbersAreReadExactly(product.fields, "sku", p.sku);
      NumbersAreReadExactly(product.fields, "quantity", p.quantity);
    }
  }

  lemma TextsAreReadExactly(fields: map<string, Json>, text: string)
    ensures BoundedStringField(fields, "posting_number", MAX_POSTING_NUMBER_BYTES, ValidIdentifier) == Ok(text) <==>
            SaysText(fields, "posting_number", 256, "-_./", text)
    ensures BoundedStringField(fields, "status", MAX_STATUS_BYTES, ValidStatus) == Ok(text) <==>
            SaysText(fields, "status", 128, "-_", text)
  {
    forall c: char ensures ValidIdentifier(c) <==> IsAlphanumeric(c) || c in "-_./" {
    }
    forall c: char ensures ValidStatus(c) <==> IsAlphanumeric(c) || c in "-_" {
    }
  }

  lemma ProductListsAreReadExactly(items: seq<Json>, products: seq<Product>)
    ensures AllProductsDecode(items) && DecodedProducts(items) == products <==>
            |items| == |products| && forall i :: 0 <= i < |items| ==> SaysProduct(items[i], products[i])
  {
    if AllProductsDecode(items) && DecodedProducts(items) == products {
      forall i | 0 <= i < |items| ensures SaysProduct(items[i], products[i]) {
        ProductsAreReadExactly(items[i], products[i]);
      }
    }
    if |items| == |products| && forall i :: 0 <= i < |items| ==> SaysProduct(items[i], products[i]) {
      forall i | 0 <= i < |items| ensures DecodeProduct(items[i]) == Ok(products[i]) {
        ProductsAreReadExactly(items[i], products[i]);
      }
    }
  }

  lemma PostingsAreReadExactly(posting: Json, p: Posting)
    ensures DecodePosting(posting) == Some(p) <==> SaysPosting(posting, p)
  {
    if posting.Obj? {
      TextsAreReadExactly(posting.fields, p.number);
      TextsAreReadExactly(posting.fields, p.status);
      if "products" in posting.fields && posting.fields["products"].Arr? {
        ProductListsAreReadExactly(posting.fields["products"].items, p.products);
      }
    }
  }

  lemma CursorsAreReadExactly(root: map<string, Json>, next: Option<string>)
    ensures NextCursor(root) == Ok(next) <==> SaysNext(root, next)
  {
  }

  lemma PostingListsAreReadExactly(items: seq<Json>, postings: seq<Posting>)
    ensures AllPostingsDecode(items) && DecodedPostings(items) == postings <==>
            |items| == |postings| && forall i :: 0 <= i < |items| ==> SaysPosting(items[i], postings[i])
  {
    if AllPostingsDecode(items) && DecodedPostings(items) == postings {
      forall i | 0 <= i < |items| ensures SaysPosting(items[i], postings[i]) {
        PostingsAreReadExactly(items[i], postings[i]);
      }
    }
    if |items| == |postings| && forall i :: 0 <= i < |items| ==> SaysPosting(items[i], postings[i]) {
      forall i | 0 <= i < |items| ensures DecodePosting(items[i]) == Some(postings[i]) {
        PostingsAreReadExactly(items[i], postings[i]);
      }
    }
  }

  /** A page is well formed exactly when its JSON says so, and then it is what the JSON says. */
  lemma PagesAreReadExactly(response: Json, page: Page)
    ensures DecodePage(response) == Some(page) <==> SaysPage(response, page)
  {
    if response.Obj? {
      CursorsAreReadExactly(response.fields, page.next);
      if "postings" in response.fields && response.fields["postings"].Arr? {
        PostingListsAreReadExactly(response.fields["postings"].items, page.postings);
      }
    }
  }

  lemma WhatProductsSay(product: Json)
    ensures DecodeProduct(product).Ok? ==> SaysProduct(product, DecodeProduct(product).value)
    ensures DecodeProduct(product).Err? ==> forall p: Product :: !SaysProduct(product, p)
  {
    forall p: Product ensures DecodeProduct(product) == Ok(p) <==> SaysProduct(product, p) {
      ProductsAreReadExactly(product, p);
    }
  }

  lemma WhatPagesSay(response: Json)
    ensures DecodePage(response).Some? ==> SaysPage(response, DecodePage(response).value)
    ensures DecodePage(response).None? ==> forall page: Page :: !SaysPage(response, page)
  {
    forall page: Page ensures DecodePage(response) == Some(page) <==> SaysPage(response, page) {
      PagesAreReadExactly(response, page);
    }
  }

  // ----- The declarative sums -----

  datatype Line = Line(scheme: Scheme, status: string, sku: nat, quantity: nat)

  /** Which lines a figure counts; an absent field counts every value. */
  datatype Filter = Filter(scheme: Option<Scheme>, cancelled: Option<bool>, sku: Option<nat>, status: Option<string>)

  predicate Matches(f: Filter, l: Line)
  {
    && (f.scheme.Some? ==> f.scheme.value == l.scheme)
    && (f.cancelled.Some? ==> f.cancelled.value == (l.status == CANCELLED))
    && (f.sku.Some? ==> f.sku.value == l.sku)
    && (f.status.Some? ==> f.status.value == l.status)
  }

  function Weigh(f: Filter): Line -> nat
  {
    (l: Line) => if Matches(f, l) then l.quantity else 0
  }

  function Units(lines: seq<Line>, f: Filter): (n: nat)
  {
    SumBy(lines, Weigh(f))
  }

  function ByScheme(scheme: Scheme, cancelled: bool): Filter { Filter(Some(scheme), Some(cancelled), None, None) }
  function ByOutcome(cancelled: bool): Filter { Filter(None, Some(cancelled), None, None) }
  function ByBucket(sku: nat, scheme: Scheme, cancelled: bool): Filter { Filter(Some(scheme), Some(cancelled), Some(sku), None) }
  function ByStatus(sku: nat, scheme: Scheme, status: string): Filter { Filter(Some(scheme), None, Some(sku), Some(status)) }

  function LineOf(scheme: Scheme, status: string, p: Product): (l: Line)
  {
    Line(scheme, status, p.sku, p.quantity)
  }

  function ShipmentLines(s: Shipment): (lines: seq<Line>)
    ensures |lines| == |s.posting.products|
    ensures forall i :: 0 <= i < |lines| ==> lines[i] == LineOf(s.scheme, s.posting.status, s.posting.products[i])
  {
    seq(|s.posting.products|, i requires 0 <= i < |s.posting.products| => LineOf(s.scheme, s.posting.status, s.posting.products[i]))
  }

  /** The lines a product list yields; a product that does not decode never counts anywhere. */
  function LinesRead(scheme: Scheme, status: string, products: seq<Json>): (lines: seq<Line>)
    ensures |lines| == |products|
    ensures forall i :: 0 <= i < |lines| && DecodeProduct(products[i]).Ok? ==>
              lines[i] == LineOf(scheme, status, DecodeProduct(products[i]).value)
  {
    seq(|products|, i requires 0 <= i < |products| =>
      if DecodeProduct(products[i]).Ok? then LineOf(scheme, status, DecodeProduct(products[i]).value) else Line(scheme, status, 0, 0))
  }

  function LinesOf(absorbed: seq<Shipment>): (lines: seq<Line>)
  {
    if absorbed == [] then [] else LinesOf(absorbed[..|absorbed| - 1]) + ShipmentLines(absorbed[|absorbed| - 1])
  }

  type PostingKey = (Scheme, string)

  function NumbersOf(absorbed: seq<Shipment>): (numbers: seq<PostingKey>)
    ensures |numbers| == |absorbed|
    ensures forall i :: 0 <= i < |numbers| ==> numbers[i] == (absorbed[i].scheme, absorbed[i].posting.number)
  {
    seq(|absorbed|, i requires 0 <= i < |absorbed| => (absorbed[i].scheme, absorbed[i].posting.number))
  }

  function CountsScheme(scheme: Scheme): PostingKey -> nat
  {
    (k: PostingKey) => if k.0 == scheme then 1 else 0
  }

  function PostingCount(numbers: seq<PostingKey>, scheme: Scheme): (n: nat)
  {
    SumBy(numbers, CountsScheme(scheme))
  }

  function SkusOf(lines: seq<Line>): (skus: set<nat>)
  {
    set l | l in lines :: l.sku
  }

  predicate Distinct(numbers: seq<PostingKey>)
  {
    forall i, j :: 0 <= i < j < |numbers| ==> numbers[i] != numbers[j]
  }

  /** Some true bucket total or posting count does not fit in a u64. */
  ghost predicate Overflows(lines: seq<Line>, numbers: seq<PostingKey>)
  {
    || (exists scheme: Scheme, cancelled: bool :: Units(lines, ByScheme(scheme, cancelled)) > U64_MAX)
    || (exists scheme: Scheme :: PostingCount(numbers, scheme) > U64_MAX)
  }

  lemma UnitsAppend(lines: seq<Line>, l: Line, f: Filter)
    ensures Units(lines + [l], f) == Units(lines, f) + (if Matches(f, l) then l.quantity else 0)
  {
    SumByConcat(lines, [l], Weigh(f));
    assert [l][1..] == [];
  }

  lemma UnitsConcat(lines: seq<Line>, more: seq<Line>, f: Filter)
    ensures Units(lines + more, f) == Units(lines, f) + Units(more, f)
  {
    SumByConcat(lines, more, Weigh(f));
  }

  /** A narrower filter never counts more. */
  lemma UnitsNarrower(lines: seq<Line>, narrow: Filter, wide: Filter)
    requires forall l :: Matches(narrow, l) ==> Matches(wide, l)
    ensures Units(lines, narrow) <= Units(lines, wide)
  {
    SumByDominated(lines, Weigh(narrow), Weigh(wide));
  }

  // ----- Rows -----

  datatype Row = Row(
    fboNonCancelled: nat, fbsNonCancelled: nat, fboCancelled: nat, fbsCancelled: nat,
    fboByStatus: map<string, nat>, fbsByStatus: map<string, nat>)

  const EMPTY_ROW: Row := Row(0, 0, 0, 0, map[], map[])

  datatype Totals = Totals(
    fboPostings: nat, fbsPostings: nat,
    fboNonCancelled: nat, fbsNonCancelled: nat, totalNonCancelled: nat,
    fboCancelled: nat, fbsCancelled: nat, totalCancelled: nat)

  function Bucket(row: Row, scheme: Scheme, cancelled: bool): (n: nat)
  {
    match (scheme, cancelled)
    case (Fbo, false) => row.fboNonCancelled
    case (Fbs, false) => row.fbsNonCancelled
    case (Fbo, true) => row.fboCancelled
    case (Fbs, true) => row.fbsCancelled
  }

  function Statuses(row: Row, scheme: Scheme): (m: map<string, nat>)
  {
    if scheme == Fbo then row.fboByStatus else row.fbsByStatus
  }

  function SetBucket(row: Row, scheme: Scheme, cancelled: bool, n: nat): (r: Row)
    ensures forall s: Scheme, c: bool :: Bucket(r, s, c) == if s == scheme && c == cancelled then n else Bucket(row, s, c)
    ensures r.fboByStatus == row.fboByStatus && r.fbsByStatus == row.fbsByStatus
  {
    match (scheme, cancelled)
    case (Fbo, false) => row.(fboNonCancelled := n)
    case (Fbs, false) => row.(fbsNonCancelled := n)
    case (Fbo, true) => row.(fboCancelled := n)
    case (Fbs, true) => row.(fbsCancelled := n)
  }

  function SetTotal(t: Totals, scheme: Scheme, cancelled: bool, n: nat): (r: Totals)
    ensures forall s: Scheme, c: bool :: TotalBucket(r, s, c) == if s == scheme && c == cancelled then n else TotalBucket(t, s, c)
    ensures r.fboPostings == t.fboPostings && r.fbsPostings == t.fbsPostings
    ensures WithinU64(t) && n <= U64_MAX ==> WithinU64(r)
  {
    match (scheme, cancelled)
    case (Fbo, false) => t.(fboNonCancelled := n)
    case (Fbs, false) => t.(fbsNonCancelled := n)
    case (Fbo, true) => t.(fboCancelled := n)
    case (Fbs, true) => t.(fbsCancelled := n)
  }

  function TotalBucket(t: Totals, scheme: Scheme, cancelled: bool): (n: nat)
  {
    match (scheme, cancelled)
    case (Fbo, false) => t.fboNonCancelled
    case (Fbs, false) => t.fbsNonCancelled
    case (Fbo, true) => t.fboCancelled
    case (Fbs, true) => t.fbsCancelled
  }

  ghost predicate BucketsOk(row: Row, sku: nat, lines: seq<Line>)
  {
    forall scheme: Scheme, cancelled: bool :: Bucket(row, scheme, cancelled) == Units(lines, ByBucket(sku, scheme, cancelled))
  }

  /** A status has an entry exactly when some unit has that status, and the entry is their sum. */
  ghost predicate StatusesOk(m: map<string, nat>, sku: nat, scheme: Scheme, lines: seq<Line>)
  {
    forall status ::
      (status in m <==> Units(lines, ByStatus(sku, scheme, status)) > 0) &&
      (status in m ==> m[status] == Units(lines, ByStatus(sku, scheme, status)))
  }

  ghost predicate RowOk(row: Row, sku: nat, lines: seq<Line>)
  {
    BucketsOk(row, sku, lines) && StatusesOk(row.fboByStatus, sku, Fbo, lines) && StatusesOk(row.fbsByStatus, sku, Fbs, lines)
  }

  ghost predicate RowsOk(rows: map<nat, Row>, lines: seq<Line>)
  {
    && rows.Keys == SkusOf(lines)
    && forall sku :: sku in rows ==> RowOk(rows[sku], sku, lines)
  }

  ghost predicate TotalsOk(t: Totals, lines: seq<Line>, numbers: seq<PostingKey>)
  {
    && (forall scheme: Scheme, cancelled: bool :: TotalBucket(t, scheme, cancelled) == Units(lines, ByScheme(scheme, cancelled)))
    && t.fboPostings == PostingCount(numbers, Fbo) && t.fbsPostings == PostingCount(numbers, Fbs)
  }

  function Get(m: map<string, nat>, k: string): (n: nat)
  {
    if k in m then m[k] else 0
  }

  function SetStatus(row: Row, scheme: Scheme, status: string, n: nat): (r: Row)
  {
    if scheme == Fbo then row.(fboByStatus := row.fboByStatus[status := n])
    else row.(fbsByStatus := row.fbsByStatus[status := n])
  }

  /** One line added to a row, without bounds. */
  function AddToRow(row: Row, l: Line): (r: Row)
  {
    var cancelled := l.status == CANCELLED;
    var r := SetBucket(row, l.scheme, cancelled, Bucket(row, l.scheme, cancelled) + l.quantity);
    SetStatus(r, l.scheme, l.status, Get(Statuses(r, l.scheme), l.status) + l.quantity)
  }

  function AddToTotals(t: Totals, l: Line): (r: Totals)
  {
    var cancelled := l.status == CANCELLED;
    SetTotal(t, l.scheme, cancelled, TotalBucket(t, l.scheme, cancelled) + l.quantity)
  }

  function RowFor(rows: map<nat, Row>, sku: nat): (row: Row)
  {
    if sku in rows then rows[sku] else EMPTY_ROW
  }

  lemma NoLinesNoUnits(lines: seq<Line>, sku: nat, f: Filter)
    requires sku !in SkusOf(lines) && f.sku == Some(sku)
    ensures Units(lines, f) == 0
  {
    if lines != [] {
      assert lines[0].sku in SkusOf(lines);
      assert SkusOf(lines[1..]) <= SkusOf(lines);
      NoLinesNoUnits(lines[1..], sku, f);
    }
  }

  lemma EmptyRowOk(lines: seq<Line>, sku: nat)
    requires sku !in SkusOf(lines)
    ensures RowOk(EMPTY_ROW, sku, lines)
  {
    forall f: Filter | f.sku == Some(sku) ensures Units(lines, f) == 0 {
      NoLinesNoUnits(lines, sku, f);
    }
  }

  lemma BucketsStep(row: Row, sku: nat, lines: seq<Line>, l: Line)
    requires BucketsOk(row, sku, lines)
    ensures BucketsOk(if l.sku == sku then AddToRow(row, l) else row, sku, lines + [l])
  {
    forall scheme: Scheme, cancelled: bool
      ensures Bucket(if l.sku == sku then AddToRow(row, l) else row, scheme, cancelled) ==
              Units(lines + [l], ByBucket(sku, scheme, cancelled))
    {
      UnitsAppend(lines, l, ByBucket(sku, scheme, cancelled));
    }
  }

  lemma StatusesStep(m: map<string, nat>, sku: nat, scheme: Scheme, lines: seq<Line>, l: Line)
    requires StatusesOk(m, sku, scheme, lines) && l.quantity > 0
    ensures StatusesOk(if l.sku == sku && l.scheme == scheme then m[l.status := Get(m, l.status) + l.quantity] else m,
                       sku, scheme, lines + [l])
  {
    forall status {
      UnitsAppend(lines, l, ByStatus(sku, scheme, status));
    }
  }

  /** Absorbing a line updates its own row and leaves every other row's figures alone. */
  lemma RowStep(row: Row, sku: nat, lines: seq<Line>, l: Line)
    requires RowOk(row, sku, lines) && l.quantity > 0
    ensures RowOk(if l.sku == sku then AddToRow(row, l) else row, sku, lines + [l])
  {
    BucketsStep(row, sku, lines, l);
    StatusesStep(row.fboByStatus, sku, Fbo, lines, l);
    StatusesStep(row.fbsByStatus, sku, Fbs, lines, l);
  }

  lemma RowsStep(rows: map<nat, Row>, lines: seq<Line>, l: Line)
    requires RowsOk(rows, lines) && l.quantity > 0
    ensures RowsOk(rows[l.sku := AddToRow(RowFor(rows, l.sku), l)], lines + [l])
  {
    var row := RowFor(rows, l.sku);
    var rows' := rows[l.sku := AddToRow(row, l)];
    if l.sku !in rows {
      EmptyRowOk(lines, l.sku);
    }
    assert SkusOf(lines + [l]) == SkusOf(lines) + {l.sku};
    forall sku | sku in rows' ensures RowOk(rows'[sku], sku, lines + [l]) {
      RowStep(if sku == l.sku then row else rows[sku], sku, lines, l);
    }
  }

  lemma TotalsStep(t: Totals, lines: seq<Line>, numbers: seq<PostingKey>, l: Line)
    requires TotalsOk(t, lines, numbers)
    ensures TotalsOk(AddToTotals(t, l), lines + [l], numbers)
  {
    forall scheme: Scheme, cancelled: bool
      ensures TotalBucket(AddToTotals(t, l), scheme, cancelled) == Units(lines + [l], ByScheme(scheme, cancelled))
    {
      UnitsAppend(lines, l, ByScheme(scheme, cancelled));
    }
  }

  /** The row and status figures of a line's bucket never exceed the bucket's total. */
  lemma RowWithinTotal(row: Row, lines: seq<Line>, scheme: Scheme, status: string, sku: nat)
    requires RowOk(row, sku, lines)
    ensures Bucket(row, scheme, status == CANCELLED) <= Units(lines, ByScheme(scheme, status == CANCELLED))
    ensures Get(Statuses(row, scheme), status) <= Units(lines, ByScheme(scheme, status == CANCELLED))
  {
    var wide := ByScheme(scheme, status == CANCELLED);
    UnitsNarrower(lines, ByBucket(sku, scheme, status == CANCELLED), wide);
    UnitsNarrower(lines, ByStatus(sku, scheme, status), wide);
  }

  function CheckedAdd(a: nat, b: nat): (r: Option<nat>)
  {
    if a + b <= U64_MAX then Some(a + b) else None
  }

  predicate WithinU64(t: Totals)
  {
    && t.fboPostings <= U64_MAX && t.fbsPostings <= U64_MAX
    && t.fboNonCancelled <= U64_MAX && t.fbsNonCancelled <= U64_MAX && t.fboCancelled <= U64_MAX && t.fbsCancelled <= U64_MAX
  }

  /** What the additions of one line amount to, and why the row and status checks follow from the total's. */
  lemma LineStep(rows: map<nat, Row>, t: Totals, lines: seq<Line>, numbers: seq<PostingKey>, l: Line)
    requires RowsOk(rows, lines) && TotalsOk(t, lines, numbers) && l.quantity > 0
    ensures var row := RowFor(rows, l.sku);
            var total := TotalBucket(t, l.scheme, l.status == CANCELLED);
            && total == Units(lines, ByScheme(l.scheme, l.status == CANCELLED))
            && Bucket(row, l.scheme, l.status == CANCELLED) <= total && Get(Statuses(row, l.scheme), l.status) <= total
            && RowsOk(rows[l.sku := AddToRow(row, l)], lines + [l])
            && TotalsOk(AddToTotals(t, l), lines + [l], numbers)
  {
    if l.sku !in rows { EmptyRowOk(lines, l.sku); }
    RowWithinTotal(RowFor(rows, l.sku), lines, l.scheme, l.status, l.sku);
    RowsStep(rows, lines, l);
    TotalsStep(t, lines, numbers, l);
  }

  /** Why one more line is refused, told from the true sums. */
  ghost function LineFailure(lines: seq<Line>, l: Line): (failure: Option<Error>)
  {
    if |SkusOf(lines) + {l.sku}| > MAX_AGGREGATED_SKUS then Some(TooManyRows)
    else if Units(lines, ByScheme(l.scheme, l.status == CANCELLED)) + l.quantity > U64_MAX then Some(Overflow)
    else None
  }

  /** Why a whole batch of shipments cannot be absorbed, told from the true sums. */
  ghost predicate Blames(e: Error, lines: seq<Line>, numbers: seq<PostingKey>)
  {
    || (e == DuplicatePosting && !Distinct(numbers))
    || (e == TooManyRows && |SkusOf(lines)| > MAX_AGGREGATED_SKUS)
    || (e == Overflow && Overflows(lines, numbers))
  }

  lemma SubsetSize<T>(small: set<T>, large: set<T>)
    requires small <= large
    ensures |small| <= |large|
  {
    assert large == small + (large - small);
  }

  /** What is wrong with a batch stays wrong when more arrives. */
  lemma BlamesMonotone(e: Error, lines: seq<Line>, moreLines: seq<Line>, numbers: seq<PostingKey>, moreNumbers: seq<PostingKey>)
    requires Blames(e, lines, numbers)
    ensures Blames(e, lines + moreLines, numbers + moreNumbers)
  {
    if e == DuplicatePosting {
      var i, j :| 0 <= i < j < |numbers| && numbers[i] == numbers[j];
      assert (numbers + moreNumbers)[i] == (numbers + moreNumbers)[j];
    } else if e == TooManyRows {
      SubsetSize(SkusOf(lines), SkusOf(lines + moreLines));
    } else if scheme: Scheme, cancelled: bool :| Units(lines, ByScheme(scheme, cancelled)) > U64_MAX {
      UnitsConcat(lines, moreLines, ByScheme(scheme, cancelled));
    } else {
      var scheme: Scheme :| PostingCount(numbers, scheme) > U64_MAX;
      SumByConcat(numbers, moreNumbers, CountsScheme(scheme));
      assert PostingCount(numbers + moreNumbers, scheme) > U64_MAX;
    }
  }

  lemma OneMoreDecodes(products: seq<Json>, i: nat)
    requires i < |products|
    ensures AllProductsDecode(products[..i]) && DecodeProduct(products[i]).Ok? ==> AllProductsDecode(products[..i + 1])
    ensures AllProductsDecode(products) ==> DecodeProduct(products[i]).Ok?
  {
    assert products[..i + 1] == products[..i] + [products[i]];
  }

  lemma NextLine(lines: seq<Line>, more: seq<Line>, i: nat)
    requires i <= |more|
    ensures i == 0 ==> lines + more[..i] == lines
    ensures i < |more| ==> lines + more[..i + 1] == lines + more[..i] + [more[i]]
    ensures i == |more| ==> lines + more[..i] == lines + more
  {
    if i == |more| { assert more[..i] == more; }
  }

  /** A refused line is to blame already on its own prefix. */
  lemma LineFailureBlames(lines: seq<Line>, l: Line, numbers: seq<PostingKey>)
    requires LineFailure(lines, l).Some?
    ensures Blames(LineFailure(lines, l).value, lines + [l], numbers)
  {
    assert SkusOf(lines + [l]) == SkusOf(lines) + {l.sku};
    UnitsAppend(lines, l, ByScheme(l.scheme, l.status == CANCELLED));
  }

  lemma PrefixBlames(lines: seq<Line>, more: seq<Line>, i: nat, numbers: seq<PostingKey>)
    requires i < |more| && LineFailure(lines + more[..i], more[i]).Some?
    ensures Blames(LineFailure(lines + more[..i], more[i]).value, lines + more, numbers)
  {
    var done := lines + more[..i];
    LineFailureBlames(done, more[i], numbers);
    assert numbers + [] == numbers;
    BlamesMonotone(LineFailure(done, more[i]).value, done + [more[i]], more[i + 1..], numbers, []);
    assert lines + more == done + [more[i]] + more[i + 1..];
  }

  /** A represented batch has nothing to blame. */
  lemma NothingToBlame(rows: map<nat, Row>, t: Totals, lines: seq<Line>, numbers: seq<PostingKey>, e: Error)
    requires RowsOk(rows, lines) && |rows| <= MAX_AGGREGATED_SKUS
    requires TotalsOk(t, lines, numbers) && WithinU64(t) && Distinct(numbers)
    ensures !Blames(e, lines, numbers)
  {
    assert |SkusOf(lines)| == |rows|;
    assert forall scheme: Scheme, cancelled: bool :: TotalBucket(t, scheme, cancelled) <= U64_MAX;
  }

  function Shipments(scheme: Scheme, postings: seq<Posting>): (s: seq<Shipment>)
    ensures |s| == |postings|
    ensures forall i :: 0 <= i < |s| ==> s[i] == Shipment(scheme, postings[i])
  {
    seq(|postings|, i requires 0 <= i < |postings| => Shipment(scheme, postings[i]))
  }

  lemma {:induction false} LinesOfConcat(a: seq<Shipment>, b: seq<Shipment>)
    ensures LinesOf(a + b) == LinesOf(a) + LinesOf(b)
  {
    if b == [] {
      assert a + b == a && LinesOf(b) == [];
    } else {
      var less, last := b[..|b| - 1], b[|b| - 1];
      assert a + b == a + less + [last] && b == less + [last];
      LinesOfConcat(a, less);
      LinesOfLast(a + less, last);
      LinesOfLast(less, last);
      Reassociate(LinesOf(a), LinesOf(less), ShipmentLines(last));
    }
  }

  lemma LinesOfLast(a: seq<Shipment>, s: Shipment)
    ensures LinesOf(a + [s]) == LinesOf(a) + ShipmentLines(s)
  {
    assert (a + [s])[..|a|] == a;
  }

  lemma Reassociate(a: seq<Line>, b: seq<Line>, c: seq<Line>)
    ensures a + b + c == a + (b + c)
  {
  }

  lemma LinesOfAppend(a: seq<Shipment>, s: Shipment)
    ensures LinesOf(a + [s]) == LinesOf(a) + ShipmentLines(s)
    ensures NumbersOf(a + [s]) == NumbersOf(a) + [(s.scheme, s.posting.number)]
  {
    LinesOfLast(a, s);
  }

  lemma BlamesBatch(e: Error, a: seq<Shipment>, b: seq<Shipment>)
    requires Blames(e, LinesOf(a), NumbersOf(a))
    ensures Blames(e, LinesOf(a + b), NumbersOf(a + b))
  {
    LinesOfConcat(a, b);
    assert NumbersOf(a + b) == NumbersOf(a) + NumbersOf(b);
    BlamesMonotone(e, LinesOf(a), LinesOf(b), NumbersOf(a), NumbersOf(b));
  }

  lemma RepeatBlames(absorbed: seq<Shipment>, s: Shipment)
    requires (s.scheme, s.posting.number) in NumbersOf(absorbed)
    ensures Blames(DuplicatePosting, LinesOf(absorbed + [s]), NumbersOf(absorbed + [s]))
  {
    var numbers := NumbersOf(absorbed);
    var i :| 0 <= i < |numbers| && numbers[i] == (s.scheme, s.posting.number);
    assert NumbersOf(absorbed + [s])[i] == NumbersOf(absorbed + [s])[|absorbed|];
  }

  lemma CountBlames(absorbed: seq<Shipment>, s: Shipment)
    requires PostingCount(NumbersOf(absorbed) + [(s.scheme, s.posting.number)], s.scheme) > U64_MAX
    ensures Blames(Overflow, LinesOf(absorbed + [s]), NumbersOf(absorbed + [s]))
  {
    LinesOfAppend(absorbed, s);
  }

  /** Counting one posting more. */
  function CountPosting(t: Totals, scheme: Scheme): (r: Totals)
  {
    if scheme == Fbo then t.(fboPostings := t.fboPostings + 1) else t.(fbsPostings := t.fbsPostings + 1)
  }

  lemma CountStep(t: Totals, lines: seq<Line>, numbers: seq<PostingKey>, key: PostingKey)
    requires TotalsOk(t, lines, numbers)
    ensures TotalsOk(CountPosting(t, key.0), lines, numbers + [key])
    ensures PostingCount(numbers + [key], key.0) == (if key.0 == Fbo then t.fboPostings else t.fbsPostings) + 1
  {
    forall scheme: Scheme
      ensures PostingCount(numbers + [key], scheme) == PostingCount(numbers, scheme) + (if key.0 == scheme then 1 else 0)
    {
      SumByConcat(numbers, [key], CountsScheme(scheme));
      assert [key][1..] == [];
    }
    var t' := CountPosting(t, key.0);
    assert forall scheme: Scheme, cancelled: bool :: TotalBucket(t', scheme, cancelled) == TotalBucket(t, scheme, cancelled);
  }

  /** One posting further into a page. */
  lemma PageStep(scheme: Scheme, postings: seq<Json>, i: nat)
    requires i < |postings| && AllPostingsDecode(postings[..i]) && DecodePosting(postings[i]).Some?
    ensures AllPostingsDecode(postings[..i + 1])
    ensures var p := DecodePosting(postings[i]).value;
            && Shipments(scheme, DecodedPostings(postings[..i + 1])) == Shipments(scheme, DecodedPostings(postings[..i])) + [Shipment(scheme, p)]
            && ProductCount(DecodedPostings(postings[..i + 1])) == ProductCount(DecodedPostings(postings[..i])) + |p.products|
  {
    var p := DecodePosting(postings[i]).value;
    assert DecodedPostings(postings[..i + 1]) == DecodedPostings(postings[..i]) + [p];
    assert (DecodedPostings(postings[..i]) + [p])[..i] == DecodedPostings(postings[..i]);
  }

  lemma {:induction false} ProductCountMonotone(postings: seq<Posting>, k: nat)
    requires k <= |postings|
    ensures ProductCount(postings[..k]) <= ProductCount(postings)
  {
    if k < |postings| {
      var before := postings[..|postings| - 1];
      assert before[..k] == postings[..k];
      ProductCountMonotone(before, k);
    } else {
      assert postings[..k] == postings;
    }
  }

  /** A page refused at posting `i` is refused for a reason that the whole page shows. */
  lemma PageFailure(scheme: Scheme, postings: seq<Json>, i: nat, start: seq<Shipment>, e: Error)
    requires AllPostingsDecode(postings) && i < |postings|
    requires var upTo := DecodedPostings(postings[..i + 1]);
             || ProductCount(upTo) > MAX_PRODUCTS_PER_PAGE
             || Blames(e, LinesOf(start + Shipments(scheme, upTo)), NumbersOf(start + Shipments(scheme, upTo)))
    ensures var decoded := DecodedPostings(postings);
            || ProductCount(decoded) > MAX_PRODUCTS_PER_PAGE
            || Blames(e, LinesOf(start + Shipments(scheme, decoded)), NumbersOf(start + Shipments(scheme, decoded)))
  {
    var decoded := DecodedPostings(postings);
    DecodedPrefix(postings, i + 1);
    ProductCountMonotone(decoded, i + 1);
    ShipmentsSplit(scheme, decoded, i + 1);
    var before, after := start + Shipments(scheme, decoded[..i + 1]), Shipments(scheme, decoded[i + 1..]);
    assert before + after == start + Shipments(scheme, decoded);
    if Blames(e, LinesOf(before), NumbersOf(before)) {
      BlamesBatch(e, before, after);
    }
  }

  lemma DecodedPrefix(postings: seq<Json>, k: nat)
    requires AllPostingsDecode(postings) && k <= |postings|
    ensures AllPostingsDecode(postings[..k]) && DecodedPostings(postings[..k]) == DecodedPostings(postings)[..k]
  {
  }

  lemma ShipmentsSplit(scheme: Scheme, decoded: seq<Posting>, k: nat)
    requires k <= |decoded|
    ensures Shipments(scheme, decoded) == Shipments(scheme, decoded[..k]) + Shipments(scheme, decoded[k..])
  {
  }

  /** The lines read off a product list are those of the shipment it decodes to. */
  lemma ReadLinesAreShipped(scheme: Scheme, status: string, products: seq<Json>, s: Shipment)
    requires AllProductsDecode(products) && s.scheme == scheme && s.posting.status == status
    requires s.posting.products == DecodedProducts(products)
    ensures LinesRead(scheme, status, products) == ShipmentLines(s)
  {
  }

  /** Mentioning this brings the definition of `Represents` into a proof; other proofs only pass it on. */
  ghost predicate Unfold(k: nat)
  {
    true
  }

  class Accumulator {
    /** Every shipment absorbed so far, in order. */
    ghost var absorbed: seq<Shipment>
    var rows: map<nat, Row>
    var seenPostings: set<PostingKey>
    var totals: Totals

    /** The accumulator is exactly the sums over these lines and these posting numbers. */
    ghost predicate Represents(lines: seq<Line>, numbers: seq<PostingKey>)
      reads this
    {
      forall k: nat {:trigger Unfold(k)} :: Unfold(k) ==> Sums(lines, numbers) && seenPostings == (set k | k in numbers)
    }

    ghost predicate Sums(lines: seq<Line>, numbers: seq<PostingKey>)
      reads this
    {
      && RowsOk(rows, lines) && |rows| <= MAX_AGGREGATED_SKUS
      && TotalsOk(totals, lines, numbers) && WithinU64(totals)
      && Distinct(numbers)
    }

    /** A posting number was marked as seen but is not counted yet. */
    ghost predicate Marked(key: PostingKey, lines: seq<Line>, numbers: seq<PostingKey>)
      reads this
    {
      forall k: nat {:trigger Unfold(k)} :: Unfold(k) ==>
        Sums(lines, numbers) && key !in numbers && seenPostings == (set k | k in numbers) + {key}
    }

    ghost predicate Valid()
      reads this
    {
      Represents(LinesOf(absorbed), NumbersOf(absorbed))
    }

    constructor ()
      ensures Valid() && absorbed == []
    {
      absorbed := [];
      rows, seenPostings, totals := map[], {}, Totals(0, 0, 0, 0, 0, 0, 0, 0);
    }

    /** The checked additions of one product: its row, the matching total, then its status. */
    method AddUnits(l: Line) returns (ok: bool)
      requires var row := RowFor(rows, l.sku);
               var total := TotalBucket(totals, l.scheme, l.status == CANCELLED);
               Bucket(row, l.scheme, l.status == CANCELLED) <= total && Get(Statuses(row, l.scheme), l.status) <= total
      modifies this`rows, this`totals
      ensures ok <==> TotalBucket(old(totals), l.scheme, l.status == CANCELLED) + l.quantity <= U64_MAX
      ensures ok ==> rows == old(rows)[l.sku := AddToRow(RowFor(old(rows), l.sku), l)] && totals == AddToTotals(old(totals), l)
    {
      var row := RowFor(rows, l.sku);
      var cancelled := l.status == CANCELLED;
      var inRow := CheckedAdd(Bucket(row, l.scheme, cancelled), l.quantity);
      if inRow.None? { return false; }
      row := SetBucket(row, l.scheme, cancelled, inRow.value);
      var inTotal := CheckedAdd(TotalBucket(totals, l.scheme, cancelled), l.quantity);
      if inTotal.None? { return false; }
      totals := SetTotal(totals, l.scheme, cancelled, inTotal.value);
      var inStatus := CheckedAdd(Get(Statuses(row, l.scheme), l.status), l.quantity);
      if inStatus.None? { return false; }
      rows := rows[l.sku := SetStatus(row, l.scheme, l.status, inStatus.value)];
      return true;
    }

    /** A decoded product either fits, or fails for its SKU, or fails for its bucket total. */
    method AbsorbLine(l: Line, ghost lines: seq<Line>, ghost numbers: seq<PostingKey>) returns (failure: Option<Error>)
      requires Represents(lines, numbers) && 0 < l.quantity
      modifies this`rows, this`totals
      ensures failure == LineFailure(lines, l)
      ensures failure.None? ==> Represents(lines + [l], numbers)
    {
      assert Unfold(0);
      if l.sku !in rows && |rows| >= MAX_AGGREGATED_SKUS {
        assert |rows.Keys + {l.sku}| == |rows| + 1;
        return Some(TooManyRows);
      }
      assert l.sku in rows ==> rows.Keys + {l.sku} == rows.Keys;
      LineStep(rows, totals, lines, numbers, l);
      var ok := AddUnits(l);
      return if ok then None else Some(Overflow);
    }

    method AbsorbProduct(scheme: Scheme, status: string, product: Json, ghost lines: seq<Line>, ghost numbers: seq<PostingKey>)
      returns (failure: Option<Error>)
      requires Represents(lines, numbers)
      modifies this`rows, this`totals
      ensures DecodeProduct(product).Err? ==> failure.Some? && forall p: Product :: !SaysProduct(product, p)
      ensures DecodeProduct(product).Ok? ==> SaysProduct(product, DecodeProduct(product).value)
      ensures DecodeProduct(product).Ok? ==>
                var l := LineOf(scheme, status, DecodeProduct(product).value);
                failure == LineFailure(lines, l) && (failure.None? ==> Represents(lines + [l], numbers))
    {
      var decoded := DecodeProduct(product);
      WhatProductsSay(product);
      if decoded.Err? { return Some(decoded.error); }
      failure := AbsorbLine(LineOf(scheme, status, decoded.value), lines, numbers);
    }

    method AbsorbProducts(scheme: Scheme, status: string, products: seq<Json>, ghost lines: seq<Line>, ghost numbers: seq<PostingKey>)
      returns (failure: Option<Error>)
      requires Represents(lines, numbers)
      modifies this`rows, this`totals
      ensures failure.None? ==>
                AllProductsDecode(products) && Represents(lines + LinesRead(scheme, status, products), numbers)
      ensures failure.Some? ==>
                !AllProductsDecode(products) || Blames(failure.value, lines + LinesRead(scheme, status, products), numbers)
    {
      NextLine(lines, LinesRead(scheme, status, products), 0);
      for i := 0 to |products|
        invariant Represents(lines + LinesRead(scheme, status, products)[..i], numbers) && AllProductsDecode(products[..i])
      {
        failure := AbsorbNext(scheme, status, products, i, lines, numbers);
        if failure.Some? { return; }
      }
      NextLine(lines, LinesRead(scheme, status, products), |products|);
      assert products[..|products|] == products;
      return None;
    }

    /** One turn of the product loop, told from the whole list: a refusal is one that the whole list shows. */
    method AbsorbNext(scheme: Scheme, status: string, products: seq<Json>, i: nat,
                      ghost lines: seq<Line>, ghost numbers: seq<PostingKey>)
      returns (failure: Option<Error>)
      requires i < |products| && AllProductsDecode(products[..i])
      requires Represents(lines + LinesRead(scheme, status, products)[..i], numbers)
      modifies this`rows, this`totals
      ensures failure.None? ==>
                AllProductsDecode(products[..i + 1]) && Represents(lines + LinesRead(scheme, status, products)[..i + 1], numbers)
      ensures failure.Some? ==>
                !AllProductsDecode(products) || Blames(failure.value, lines + LinesRead(scheme, status, products), numbers)
    {
      ghost var more := LinesRead(scheme, status, products);
      failure := AbsorbProduct(scheme, status, products[i], lines + more[..i], numbers);
      NextLine(lines, more, i);
      OneMoreDecodes(products, i);
      if failure.Some? && DecodeProduct(products[i]).Ok? {
        PrefixBlames(lines, more, i, numbers);
      }
    }

    /** `BTreeSet::insert`: false when the posting was already counted. */
    method MarkSeen(key: PostingKey, ghost lines: seq<Line>, ghost numbers: seq<PostingKey>) returns (isNew: bool)
      requires Represents(lines, numbers)
      modifies this`seenPostings
      ensures isNew <==> key !in numbers
      ensures isNew ==> Marked(key, lines, numbers)
    {
      assert Unfold(0);
      isNew := key !in seenPostings;
      seenPostings := seenPostings + {key};
    }

    method CountOne(key: PostingKey, ghost lines: seq<Line>, ghost numbers: seq<PostingKey>) returns (ok: bool)
      requires Marked(key, lines, numbers)
      modifies this`totals
      ensures ok ==> Represents(lines, numbers + [key])
      ensures !ok ==> PostingCount(numbers + [key], key.0) > U64_MAX
    {
      assert Unfold(0);
      CountStep(totals, lines, numbers, key);
      var count := CheckedAdd(if key.0 == Fbo then totals.fboPostings else totals.fbsPostings, 1);
      if count.None? { return false; }
      totals := CountPosting(totals, key.0);
      assert seenPostings == set k | k in numbers + [key];
      return true;
    }

    /** The loop body of `absorb_page`: one posting of a page that has yielded `productRows` products so far. */
    method AbsorbPosting(scheme: Scheme, posting: Json, productRows: nat)
      returns (failure: Option<Error>, productRows': nat)
      requires Valid()
      modifies this
      ensures failure.None? ==>
                DecodePosting(posting).Some? &&
                var p := DecodePosting(posting).value;
                && productRows' == productRows + |p.products| <= MAX_PRODUCTS_PER_PAGE
                && absorbed == old(absorbed) + [Shipment(scheme, p)] && Valid()
      ensures failure.Some? ==>
                || DecodePosting(posting).None?
                || productRows + |DecodePosting(posting).value.products| > MAX_PRODUCTS_PER_PAGE
                || var all := old(absorbed) + [Shipment(scheme, DecodePosting(posting).value)];
                   Blames(failure.value, LinesOf(all), NumbersOf(all))
    {
      productRows' := productRows;
      if !posting.Obj? { return Some(Shape), productRows; }
      var number := BoundedStringField(posting.fields, "posting_number", MAX_POSTING_NUMBER_BYTES, ValidIdentifier);
      if number.Err? { return Some(number.error), productRows; }
      var key := (scheme, number.value);
      ghost var lines, numbers := LinesOf(absorbed), NumbersOf(absorbed);
      var isNew := MarkSeen(key, lines, numbers);
      if !isNew {
        if DecodePosting(posting).Some? {
          RepeatBlames(absorbed, Shipment(scheme, DecodePosting(posting).value));
        }
        return Some(DuplicatePosting), productRows;
      }
      var status := BoundedStringField(posting.fields, "status", MAX_STATUS_BYTES, ValidStatus);
      if status.Err? { return Some(status.error), productRows; }
      var products := ArrayField(posting.fields, "products");
      if products.Err? { return Some(products.error), productRows; }
      productRows' := productRows + |products.value|;
      if productRows' > MAX_PRODUCTS_PER_PAGE { return Some(TooManyRows), productRows'; }
      failure := AbsorbMarked(scheme, number.value, status.value, products.value);
    }

    /** The rest of a posting once its number is marked and its size is admitted: count it, then its products. */
    method AbsorbMarked(scheme: Scheme, number: string, status: string, products: seq<Json>) returns (failure: Option<Error>)
      requires Marked((scheme, number), LinesOf(absorbed), NumbersOf(absorbed))
      modifies this`rows, this`totals, this`absorbed
      ensures failure.None? ==>
                && AllProductsDecode(products) && Valid()
                && absorbed == old(absorbed) + [Shipment(scheme, Posting(number, status, DecodedProducts(products)))]
      ensures failure.Some? && AllProductsDecode(products) ==>
                var all := old(absorbed) + [Shipment(scheme, Posting(number, status, DecodedProducts(products)))];
                Blames(failure.value, LinesOf(all), NumbersOf(all))
    {
      ghost var key, lines, numbers := (scheme, number), LinesOf(absorbed), NumbersOf(absorbed);
      var counted := CountOne((scheme, number), lines, numbers);
      if !counted {
        if AllProductsDecode(products) {
          CountBlames(absorbed, Shipment(scheme, Posting(number, status, DecodedProducts(products))));
        }
        return Some(Overflow);
      }
      failure := AbsorbProducts(scheme, status, products, lines, numbers + [key]);
      if AllProductsDecode(products) {
        ghost var s := Shipment(scheme, Posting(number, status, DecodedProducts(products)));
        ReadLinesAreShipped(scheme, status, products, s);
        LinesOfAppend(absorbed, s);
        absorbed := absorbed + [s];
      }
    }

    /**
      `absorb_page`: a page is absorbed whole exactly when it is well formed and nothing in the
      true sums is to blame; an accumulator that has refused a page is not used again.
     */
    method AbsorbPage(scheme: Scheme, response: Json) returns (r: Result<Option<string>, Error>)
      requires Valid()
      modifies this
      ensures r.Ok? ==>
                DecodePage(response).Some? &&
                var page := DecodePage(response).value;
                r.value == page.next && absorbed == old(absorbed) + Shipments(scheme, page.postings) && Valid()
      ensures r.Ok? ==> SaysPage(response, DecodePage(response).value)
      ensures DecodePage(response).None? ==> forall page: Page :: !SaysPage(response, page)
      ensures r.Ok? ==> forall e: Error :: !Blames(e, LinesOf(absorbed), NumbersOf(absorbed))
      ensures r.Err? && DecodePage(response).Some? ==>
                var all := old(absorbed) + Shipments(scheme, DecodePage(response).value.postings);
                Blames(r.error, LinesOf(all), NumbersOf(all))
    {
      WhatPagesSay(response);
      if !response.Obj? { return Err(Shape); }
      var postings := ArrayField(response.fields, "postings");
      if postings.Err? { return Err(postings.error); }
      if |postings.value| > MAX_POSTINGS_PER_PAGE { return Err(TooManyRows); }
      var failure := AbsorbPostings(scheme, postings.value);
      if failure.Some? { return Err(failure.value); }
      NothingWrong();
      r := NextCursor(response.fields);
    }

    method AbsorbPostings(scheme: Scheme, postings: seq<Json>) returns (failure: Option<Error>)
      requires Valid()
      modifies this
      ensures failure.None? ==>
                && AllPostingsDecode(postings) && ProductCount(DecodedPostings(postings)) <= MAX_PRODUCTS_PER_PAGE
                && absorbed == old(absorbed) + Shipments(scheme, DecodedPostings(postings)) && Valid()
      ensures failure.Some? && AllPostingsDecode(postings) && ProductCount(DecodedPostings(postings)) <= MAX_PRODUCTS_PER_PAGE ==>
                var all := old(absorbed) + Shipments(scheme, DecodedPostings(postings));
                Blames(failure.value, LinesOf(all), NumbersOf(all))
    {
      var productRows := 0;
      assert DecodedPostings(postings[..0]) == [];
      for i := 0 to |postings|
        invariant Valid() && AllPostingsDecode(postings[..i])
        invariant absorbed == old(absorbed) + Shipments(scheme, DecodedPostings(postings[..i]))
        invariant productRows == ProductCount(DecodedPostings(postings[..i])) <= MAX_PRODUCTS_PER_PAGE
      {
        if DecodePosting(postings[i]).Some? {
          PageStep(scheme, postings, i);
          assert absorbed + [Shipment(scheme, DecodePosting(postings[i]).value)] ==
                 old(absorbed) + Shipments(scheme, DecodedPostings(postings[..i + 1]));
        }
        failure, productRows := AbsorbPosting(scheme, postings[i], productRows);
        if failure.Some? {
          if AllPostingsDecode(postings) {
            PageFailure(scheme, postings, i, old(absorbed), failure.value);
          }
          return;
        }
      }
      assert postings[..|postings|] == postings;
      return None;
    }

    lemma NothingWrong()
      requires Valid()
      ensures forall e: Error :: !Blames(e, LinesOf(absorbed), NumbersOf(absorbed))
    {
      assert Unfold(0);
      forall e: Error {
        NothingToBlame(rows, totals, LinesOf(absorbed), NumbersOf(absorbed), e);
      }
    }

    /** `finish`: fails exactly when a grand total does not fit; the per-row checks cannot fail on their own. */
    method Finish() returns (r: Result<(Totals, seq<ReportRow>), Error>)
      requires Valid()
      ensures r.Ok? <==>
                Units(LinesOf(absorbed), ByOutcome(false)) <= U64_MAX && Units(LinesOf(absorbed), ByOutcome(true)) <= U64_MAX
      ensures r.Err? ==> r.error == Overflow
      ensures r.Ok? ==> IsReport(absorbed, r.value.0, r.value.1)
    {
      ghost var lines := LinesOf(absorbed);
      assert Unfold(0);
      GrandTotals(totals, lines, NumbersOf(absorbed));
      var nonCancelled := CheckedAdd(totals.fboNonCancelled, totals.fbsNonCancelled);
      if nonCancelled.None? { return Err(Overflow); }
      var cancelled := CheckedAdd(totals.fboCancelled, totals.fbsCancelled);
      if cancelled.None? { return Err(Overflow); }
      var report := FinishRows(rows, lines);
      if report.None? { return Err(Overflow); }
      var finished := totals.(totalNonCancelled := nonCancelled.value, totalCancelled := cancelled.value);
      TotalsKept(totals, finished, lines, NumbersOf(absorbed));
      return Ok((finished, report.value));
    }
  }

  lemma GrandTotals(t: Totals, lines: seq<Line>, numbers: seq<PostingKey>)
    requires TotalsOk(t, lines, numbers)
    ensures t.fboNonCancelled + t.fbsNonCancelled == Units(lines, ByOutcome(false))
    ensures t.fboCancelled + t.fbsCancelled == Units(lines, ByOutcome(true))
  {
    SplitByScheme(lines, ByOutcome(false));
    SplitByScheme(lines, ByOutcome(true));
    assert TotalBucket(t, Fbo, false) == Units(lines, ByScheme(Fbo, false)) && TotalBucket(t, Fbs, false) == Units(lines, ByScheme(Fbs, false));
    assert TotalBucket(t, Fbo, true) == Units(lines, ByScheme(Fbo, true)) && TotalBucket(t, Fbs, true) == Units(lines, ByScheme(Fbs, true));
  }

  lemma TotalsKept(t: Totals, t': Totals, lines: seq<Line>, numbers: seq<PostingKey>)
    requires TotalsOk(t, lines, numbers)
    requires t' == t.(totalNonCancelled := t'.totalNonCancelled, totalCancelled := t'.totalCancelled)
    ensures TotalsOk(t', lines, numbers)
  {
    assert forall scheme: Scheme, cancelled: bool :: TotalBucket(t', scheme, cancelled) == TotalBucket(t, scheme, cancelled);
  }

  datatype ReportRow = ReportRow(
    sku: nat,
    fboNonCancelled: nat, fbsNonCancelled: nat, totalNonCancelled: nat,
    fboCancelled: nat, fbsCancelled: nat, totalCancelled: nat,
    fboStatus: map<string, nat>, fbsStatus: map<string, nat>)

  function RowPart(r: ReportRow): (row: Row)
  {
    Row(r.fboNonCancelled, r.fbsNonCancelled, r.fboCancelled, r.fbsCancelled, r.fboStatus, r.fbsStatus)
  }

  function BySkuOutcome(sku: nat, cancelled: bool): Filter { Filter(None, Some(cancelled), Some(sku), None) }

  /** Every figure of a report row is a sum over the lines of its SKU. */
  ghost predicate ReportRowOk(r: ReportRow, lines: seq<Line>)
  {
    && RowOk(RowPart(r), r.sku, lines)
    && r.totalNonCancelled == Units(lines, BySkuOutcome(r.sku, false))
    && r.totalCancelled == Units(lines, BySkuOutcome(r.sku, true))
  }

  predicate Ascending(rows: seq<ReportRow>)
  {
    forall i, j :: 0 <= i < j < |rows| ==> rows[i].sku < rows[j].sku
  }

  /** The declarative report of a batch of shipments. */
  ghost predicate IsReport(absorbed: seq<Shipment>, t: Totals, rows: seq<ReportRow>)
  {
    var lines := LinesOf(absorbed);
    && TotalsOk(t, lines, NumbersOf(absorbed))
    && t.totalNonCancelled == Units(lines, ByOutcome(false)) && t.totalCancelled == Units(lines, ByOutcome(true))
    && ReportsRows(rows, lines)
  }

  function RowSkus(rows: seq<ReportRow>): (skus: set<nat>)
  {
    set r | r in rows :: r.sku
  }

  /** One row per SKU that occurs, in ascending order. */
  ghost predicate ReportsRows(rows: seq<ReportRow>, lines: seq<Line>)
  {
    && Ascending(rows)
    && RowSkus(rows) == SkusOf(lines)
    && (forall i :: 0 <= i < |rows| ==> ReportRowOk(rows[i], lines))
  }

  function Narrow(f: Filter, scheme: Scheme): Filter { f.(scheme := Some(scheme)) }

  lemma SplitByScheme(lines: seq<Line>, f: Filter)
    requires f.scheme.None?
    ensures Units(lines, f) == Units(lines, Narrow(f, Fbo)) + Units(lines, Narrow(f, Fbs))
  {
    SumByAdd(lines, Weigh(Narrow(f, Fbo)), Weigh(Narrow(f, Fbs)), Weigh(f));
  }

  /** The row closure of `finish`. */
  method FinishRow(sku: nat, row: Row, ghost lines: seq<Line>) returns (r: Option<ReportRow>)
    requires RowOk(row, sku, lines)
    ensures r.None? ==> Units(lines, ByOutcome(false)) > U64_MAX || Units(lines, ByOutcome(true)) > U64_MAX
    ensures r.Some? ==> r.value.sku == sku && ReportRowOk(r.value, lines)
  {
    assert Bucket(row, Fbo, false) + Bucket(row, Fbs, false) == Units(lines, BySkuOutcome(sku, false)) by {
      SplitByScheme(lines, BySkuOutcome(sku, false));
    }
    assert Bucket(row, Fbo, true) + Bucket(row, Fbs, true) == Units(lines, BySkuOutcome(sku, true)) by {
      SplitByScheme(lines, BySkuOutcome(sku, true));
    }
    UnitsNarrower(lines, BySkuOutcome(sku, false), ByOutcome(false));
    UnitsNarrower(lines, BySkuOutcome(sku, true), ByOutcome(true));
    var nonCancelled := CheckedAdd(row.fboNonCancelled, row.fbsNonCancelled);
    if nonCancelled.None? { return None; }
    var cancelled := CheckedAdd(row.fboCancelled, row.fbsCancelled);
    if cancelled.None? { return None; }
    r := Some(ReportRow(sku, row.fboNonCancelled, row.fbsNonCancelled, nonCancelled.value,
                        row.fboCancelled, row.fbsCancelled, cancelled.value, row.fboByStatus, row.fbsByStatus));
    assert RowPart(r.value) == row;
  }

  method FinishRows(rows: map<nat, Row>, ghost lines: seq<Line>) returns (report: Option<seq<ReportRow>>)
    requires RowsOk(rows, lines)
    ensures report.None? ==> Units(lines, ByOutcome(false)) > U64_MAX || Units(lines, ByOutcome(true)) > U64_MAX
    ensures report.Some? ==> ReportsRows(report.value, lines)
  {
    var skus := SortedKeys(rows.Keys);
    var done: seq<ReportRow> := [];
    for i := 0 to |skus|
      invariant |done| == i
      invariant forall k :: 0 <= k < i ==> done[k].sku == skus[k]
      invariant forall k :: 0 <= k < i ==> ReportRowOk(done[k], lines)
    {
      var sku := skus[i];
      assert sku in rows.Keys;
      var row := FinishRow(sku, rows[sku], lines);
      if row.None? { return None; }
      done := done + [row.value];
    }
    RowsAreComplete(done, skus, rows, lines);
    return Some(done);
  }

  /** A report with one sound row per key, in key order, reports exactly the SKUs of the lines. */
  lemma RowsAreComplete(done: seq<ReportRow>, skus: seq<nat>, rows: map<nat, Row>, lines: seq<Line>)
    requires RowsOk(rows, lines) && |done| == |skus| && (forall k :: k in rows.Keys <==> k in skus)
    requires forall i, j :: 0 <= i < j < |skus| ==> skus[i] < skus[j]
    requires forall k :: 0 <= k < |done| ==> done[k].sku == skus[k] && ReportRowOk(done[k], lines)
    ensures ReportsRows(done, lines)
  {
    forall sku | sku in SkusOf(lines) ensures sku in RowSkus(done) {
      var k :| 0 <= k < |skus| && skus[k] == sku;
      assert done[k] in done;
    }
    assert forall r :: r in done ==> r.sku in skus;
  }

  /** The iteration order of a `BTreeMap`. */
  method SortedKeys(keys: set<nat>) returns (sorted: seq<nat>)
    ensures forall i, j :: 0 <= i < j < |sorted| ==> sorted[i] < sorted[j]
    ensures forall k :: k in keys <==> k in sorted
  {
    sorted := [];
    var rest := keys;
    while rest != {}
      invariant rest <= keys && forall k :: k in keys <==> k in sorted || k in rest
      invariant forall i, j :: 0 <= i < j < |sorted| ==> sorted[i] < sorted[j]
      invariant forall i, k :: 0 <= i < |sorted| && k in rest ==> sorted[i] < k
      decreases rest
    {
      var least: nat :| least in rest;
      var others := rest - {least};
      while others != {}
        invariant least in rest && others <= rest && forall k :: k in rest && k !in others ==> least <= k
        decreases others
      {
        var k: nat :| k in others;
        if k < least { least := k; }
        others := others - {k};
      }
      sorted := sorted + [least];
      rest := rest - {least};
    }
  }

  // ----- Main results about the report -----

  function ShipmentWeight(f: Filter): Shipment -> nat
  {
    (s: Shipment) => Units(ShipmentLines(s), f)
  }

  lemma {:induction false} UnitsByShipment(absorbed: seq<Shipment>, f: Filter)
    ensures Units(LinesOf(absorbed), f) == SumBy(absorbed, ShipmentWeight(f))
  {
    if absorbed != [] {
      var before, last := absorbed[..|absorbed| - 1], absorbed[|absorbed| - 1];
      UnitsByShipment(before, f);
      UnitsConcat(LinesOf(before), ShipmentLines(last), f);
      SumByConcat(before, [last], ShipmentWeight(f));
      assert absorbed == before + [last];
      assert [last][1..] == [];
    }
  }

  lemma UnitsAreOrderFree(a: seq<Shipment>, b: seq<Shipment>, f: Filter)
    requires multiset(a) == multiset(b)
    ensures Units(LinesOf(a), f) == Units(LinesOf(b), f)
  {
    UnitsByShipment(a, f);
    UnitsByShipment(b, f);
    SumByPermutation(a, b, ShipmentWeight(f));
  }

  lemma {:induction false} LineOrigin(absorbed: seq<Shipment>, l: Line) returns (s: Shipment)
    requires l in LinesOf(absorbed)
    ensures s in absorbed && l in ShipmentLines(s)
  {
    var last := |absorbed| - 1;
    if l in ShipmentLines(absorbed[last]) {
      s := absorbed[last];
    } else {
      s := LineOrigin(absorbed[..last], l);
    }
  }

  lemma {:induction false} LineArrives(absorbed: seq<Shipment>, s: Shipment, l: Line)
    requires s in absorbed && l in ShipmentLines(s)
    ensures l in LinesOf(absorbed)
  {
    var last := |absorbed| - 1;
    if s != absorbed[last] {
      LineArrives(absorbed[..last], s, l);
    }
  }

  lemma SkusAreOrderFree(a: seq<Shipment>, b: seq<Shipment>)
    requires multiset(a) == multiset(b)
    ensures SkusOf(LinesOf(a)) <= SkusOf(LinesOf(b))
  {
    forall l | l in LinesOf(a) ensures l in LinesOf(b) {
      var s := LineOrigin(a, l);
      assert s in multiset(b);
      LineArrives(b, s, l);
    }
  }

  function PostingWeight(scheme: Scheme): Shipment -> nat
  {
    (s: Shipment) => if s.scheme == scheme then 1 else 0
  }

  lemma PostingCountIsOrderFree(a: seq<Shipment>, b: seq<Shipment>, scheme: Scheme)
    requires multiset(a) == multiset(b)
    ensures PostingCount(NumbersOf(a), scheme) == PostingCount(NumbersOf(b), scheme)
  {
    SumByPointwise(NumbersOf(a), CountsScheme(scheme), a, PostingWeight(scheme));
    SumByPointwise(NumbersOf(b), CountsScheme(scheme), b, PostingWeight(scheme));
    SumByPermutation(a, b, PostingWeight(scheme));
  }

  /** A row is determined by the sums it must show. */
  lemma RowIsDetermined(p: ReportRow, q: ReportRow, a: seq<Shipment>, b: seq<Shipment>)
    requires multiset(a) == multiset(b) && p.sku == q.sku
    requires ReportRowOk(p, LinesOf(a)) && ReportRowOk(q, LinesOf(b))
    ensures p == q
  {
    forall f: Filter ensures Units(LinesOf(a), f) == Units(LinesOf(b), f) {
      UnitsAreOrderFree(a, b, f);
    }
    forall scheme: Scheme, cancelled: bool ensures Bucket(RowPart(p), scheme, cancelled) == Bucket(RowPart(q), scheme, cancelled) {
    }
    assert Bucket(RowPart(p), Fbo, false) == Bucket(RowPart(q), Fbo, false) && Bucket(RowPart(p), Fbs, false) == Bucket(RowPart(q), Fbs, false);
    assert Bucket(RowPart(p), Fbo, true) == Bucket(RowPart(q), Fbo, true) && Bucket(RowPart(p), Fbs, true) == Bucket(RowPart(q), Fbs, true);
    assert p.fboStatus == q.fboStatus;
    assert p.fbsStatus == q.fbsStatus;
  }

  predicate Increasing(s: seq<nat>)
  {
    forall i, j :: 0 <= i < j < |s| ==> s[i] < s[j]
  }

  lemma HasMember(s: seq<nat>)
    ensures s != [] ==> exists k :: k in s
  {
    if s != [] {
      assert s[0] in s;
    }
  }

  lemma WithoutLast(s: seq<nat>, k: nat)
    requires Increasing(s) && s != []
    ensures k in s[..|s| - 1] <==> k in s && k != s[|s| - 1]
    ensures k in s ==> k <= s[|s| - 1]
  {
    assert s == s[..|s| - 1] + [s[|s| - 1]];
  }

  /** A strictly increasing list is determined by its elements. */
  lemma {:induction false} IncreasingIsDetermined(p: seq<nat>, q: seq<nat>)
    requires Increasing(p) && Increasing(q) && forall k :: k in p <==> k in q
    ensures p == q
  {
    HasMember(p);
    HasMember(q);
    if p != [] && q != [] {
      var i, j := |p| - 1, |q| - 1;
      WithoutLast(p, q[j]);
      WithoutLast(q, p[i]);
      assert p[i] in p && q[j] in q;
      forall k ensures k in p[..i] <==> k in q[..j] {
        WithoutLast(p, k);
        WithoutLast(q, k);
      }
      IncreasingIsDetermined(p[..i], q[..j]);
      assert p == p[..i] + [p[i]] && q == q[..j] + [q[j]];
    }
  }

  function SkuList(rows: seq<ReportRow>): (skus: seq<nat>)
    ensures |skus| == |rows| && forall i :: 0 <= i < |rows| ==> skus[i] == rows[i].sku
  {
    seq(|rows|, i requires 0 <= i < |rows| => rows[i].sku)
  }

  lemma SkuListElements(rows: seq<ReportRow>, k: nat)
    ensures k in SkuList(rows) <==> k in RowSkus(rows)
  {
    if k in SkuList(rows) {
      var i :| 0 <= i < |rows| && SkuList(rows)[i] == k;
      assert rows[i] in rows;
    }
    if k in RowSkus(rows) {
      var r :| r in rows && r.sku == k;
      var i :| 0 <= i < |rows| && rows[i] == r;
      assert SkuList(rows)[i] == k;
    }
  }

  /** Two orders, or two page splits, of the same postings give the same report. */
  lemma ReportIsOrderFree(a: seq<Shipment>, t: Totals, p: seq<ReportRow>, b: seq<Shipment>, u: Totals, q: seq<ReportRow>)
    requires multiset(a) == multiset(b) && IsReport(a, t, p) && IsReport(b, u, q)
    ensures t == u && p == q
  {
    SkusAreOrderFree(a, b);
    SkusAreOrderFree(b, a);
    forall k ensures k in SkuList(p) <==> k in SkuList(q) {
      SkuListElements(p, k);
      SkuListElements(q, k);
    }
    IncreasingIsDetermined(SkuList(p), SkuList(q));
    forall i | 0 <= i < |p| ensures p[i] == q[i] {
      RowIsDetermined(p[i], q[i], a, b);
    }
    TotalsAreDetermined(a, t, b, u);
  }

  lemma TotalsAreDetermined(a: seq<Shipment>, t: Totals, b: seq<Shipment>, u: Totals)
    requires multiset(a) == multiset(b)
    requires TotalsOk(t, LinesOf(a), NumbersOf(a)) && TotalsOk(u, LinesOf(b), NumbersOf(b))
    requires t.totalNonCancelled == Units(LinesOf(a), ByOutcome(false)) && t.totalCancelled == Units(LinesOf(a), ByOutcome(true))
    requires u.totalNonCancelled == Units(LinesOf(b), ByOutcome(false)) && u.totalCancelled == Units(LinesOf(b), ByOutcome(true))
    ensures t == u
  {
    PostingCountIsOrderFree(a, b, Fbo);
    PostingCountIsOrderFree(a, b, Fbs);
    forall f: Filter ensures Units(LinesOf(a), f) == Units(LinesOf(b), f) {
      UnitsAreOrderFree(a, b, f);
    }
    assert TotalBucket(t, Fbo, false) == TotalBucket(u, Fbo, false) && TotalBucket(t, Fbs, false) == TotalBucket(u, Fbs, false);
    assert TotalBucket(t, Fbo, true) == TotalBucket(u, Fbo, true) && TotalBucket(t, Fbs, true) == TotalBucket(u, Fbs, true);
  }

  function SkuOf(): Line -> nat { (l: Line) => l.sku }
  function StatusOf(): Line -> string { (l: Line) => l.status }
  function RowBucket(scheme: Scheme, cancelled: bool): ReportRow -> nat { (r: ReportRow) => Bucket(RowPart(r), scheme, cancelled) }
  function Reading(m: map<string, nat>): string -> nat { (k: string) => Get(m, k) }

  /** Conservation: each total is the sum of its column over the rows. */
  lemma TotalsAreRowSums(absorbed: seq<Shipment>, t: Totals, rows: seq<ReportRow>, scheme: Scheme, cancelled: bool)
    requires IsReport(absorbed, t, rows)
    ensures SumBy(rows, RowBucket(scheme, cancelled)) == TotalBucket(t, scheme, cancelled)
  {
    var lines := LinesOf(absorbed);
    var weight := Weigh(ByScheme(scheme, cancelled));
    var skus := SkuList(rows);
    forall i | 0 <= i < |rows| ensures RowBucket(scheme, cancelled)(rows[i]) == PartSum(lines, weight, SkuOf())(skus[i]) {
      var f := ByBucket(rows[i].sku, scheme, cancelled);
      assert ReportRowOk(rows[i], lines);
      assert Bucket(RowPart(rows[i]), scheme, cancelled) == Units(lines, f);
      SumByPointwise(lines, Weigh(f), lines, OnKey(weight, SkuOf(), skus[i]));
    }
    SumByPointwise(rows, RowBucket(scheme, cancelled), skus, PartSum(lines, weight, SkuOf()));
    PartitionSum(lines, weight, SkuOf(), skus);
    forall i | 0 <= i < |lines| ensures OnKeys(weight, SkuOf(), skus)(lines[i]) == weight(lines[i]) {
      assert lines[i].sku in SkusOf(lines);
      SkuListElements(rows, lines[i].sku);
    }
    SumByPointwise(lines, OnKeys(weight, SkuOf(), skus), lines, weight);
  }

  lemma {:induction false} UnitPresent(lines: seq<Line>, i: nat, f: Filter)
    requires i < |lines| && Matches(f, lines[i])
    ensures lines[i].quantity <= Units(lines, f)
  {
    if i > 0 {
      UnitPresent(lines[1..], i - 1, f);
    }
  }

  lemma StatusEntry(m: map<string, nat>, sku: nat, scheme: Scheme, lines: seq<Line>, status: string)
    requires StatusesOk(m, sku, scheme, lines) && status in m
    ensures Reading(m)(status) == PartSum(lines, Weigh(Filter(Some(scheme), None, Some(sku), None)), StatusOf())(status)
  {
    var weight := Weigh(Filter(Some(scheme), None, Some(sku), None));
    SumByPointwise(lines, Weigh(ByStatus(sku, scheme, status)), lines, OnKey(weight, StatusOf(), status));
  }

  lemma StatusIsListed(m: map<string, nat>, sku: nat, scheme: Scheme, lines: seq<Line>, i: nat)
    requires StatusesOk(m, sku, scheme, lines) && i < |lines|
    ensures lines[i].status in m || Weigh(Filter(Some(scheme), None, Some(sku), None))(lines[i]) == 0
  {
    if Matches(Filter(Some(scheme), None, Some(sku), None), lines[i]) {
      UnitPresent(lines, i, ByStatus(sku, scheme, lines[i].status));
    }
  }

  /** Conservation: the status entries of a row add up to its cancelled plus its other units. */
  lemma StatusUnitsAddUp(m: map<string, nat>, sku: nat, scheme: Scheme, lines: seq<Line>, keys: seq<string>)
    requires StatusesOk(m, sku, scheme, lines)
    requires (forall i, j :: 0 <= i < j < |keys| ==> keys[i] != keys[j]) && forall k :: k in keys <==> k in m
    ensures SumBy(keys, Reading(m)) ==
            Units(lines, ByBucket(sku, scheme, false)) + Units(lines, ByBucket(sku, scheme, true))
  {
    var whole := Filter(Some(scheme), None, Some(sku), None);
    var weight := Weigh(whole);
    SumByAdd(lines, Weigh(ByBucket(sku, scheme, false)), Weigh(ByBucket(sku, scheme, true)), weight);
    forall i | 0 <= i < |keys| ensures Reading(m)(keys[i]) == PartSum(lines, weight, StatusOf())(keys[i]) {
      StatusEntry(m, sku, scheme, lines, keys[i]);
    }
    SumByPointwise(keys, Reading(m), keys, PartSum(lines, weight, StatusOf()));
    PartitionSum(lines, weight, StatusOf(), keys);
    forall i | 0 <= i < |lines| ensures OnKeys(weight, StatusOf(), keys)(lines[i]) == weight(lines[i]) {
      StatusIsListed(m, sku, scheme, lines, i);
    }
    SumByPointwise(lines, OnKeys(weight, StatusOf(), keys), lines, weight);
  }

  // ----- The report field by field, straight from the shipments -----

  /** Which products a figure counts: by scheme, by posting status and by SKU. */
  type Pick = (Scheme, string, int) -> bool

  function PickBucket(scheme: Scheme, cancelled: bool, sku: nat): Pick
  {
    (sc, st, k) => sc == scheme && (st == "cancelled") == cancelled && k == sku
  }

  function PickSku(cancelled: bool, sku: nat): Pick
  {
    (sc, st, k) => (st == "cancelled") == cancelled && k == sku
  }

  function PickStatus(scheme: Scheme, status: string, sku: nat): Pick
  {
    (sc, st, k) => sc == scheme && st == status && k == sku
  }

  function PickScheme(scheme: Scheme, cancelled: bool): Pick
  {
    (sc, st, k) => sc == scheme && (st == "cancelled") == cancelled
  }

  function PickOutcome(cancelled: bool): Pick
  {
    (sc, st, k) => (st == "cancelled") == cancelled
  }

  function UnitsPicked(pick: Pick, s: Shipment, p: Product): (n: nat)
  {
    if pick(s.scheme, s.posting.status, p.sku) then p.quantity else 0
  }

  function PickedUnits(pick: Pick, s: Shipment): Product -> nat
  {
    (p: Product) => UnitsPicked(pick, s, p)
  }

  function PickedShipment(pick: Pick): Shipment -> nat
  {
    (s: Shipment) => SumBy(s.posting.products, PickedUnits(pick, s))
  }

  /** The units of every picked product of every shipment. */
  function Figure(absorbed: seq<Shipment>, pick: Pick): (n: nat)
  {
    SumBy(absorbed, PickedShipment(pick))
  }

  ghost predicate SamePick(f: Filter, pick: Pick)
  {
    forall l: Line :: Matches(f, l) <==> pick(l.scheme, l.status, l.sku)
  }

  lemma UnitsAreFigures(absorbed: seq<Shipment>, f: Filter, pick: Pick)
    requires SamePick(f, pick)
    ensures Units(LinesOf(absorbed), f) == Figure(absorbed, pick)
  {
    UnitsByShipment(absorbed, f);
    forall i | 0 <= i < |absorbed| ensures ShipmentWeight(f)(absorbed[i]) == PickedShipment(pick)(absorbed[i]) {
      var s := absorbed[i];
      SumByPointwise(ShipmentLines(s), Weigh(f), s.posting.products, PickedUnits(pick, s));
    }
    SumByPointwise(absorbed, ShipmentWeight(f), absorbed, PickedShipment(pick));
  }

  /** Every figure of a report row is the sum of exactly the products it is named after. */
  lemma RowsInFields(absorbed: seq<Shipment>, t: Totals, rows: seq<ReportRow>, i: nat)
    requires IsReport(absorbed, t, rows) && i < |rows|
    ensures var r := rows[i];
            && r.fboNonCancelled == Figure(absorbed, PickBucket(Fbo, false, r.sku))
            && r.fbsNonCancelled == Figure(absorbed, PickBucket(Fbs, false, r.sku))
            && r.totalNonCancelled == Figure(absorbed, PickSku(false, r.sku))
            && r.fboCancelled == Figure(absorbed, PickBucket(Fbo, true, r.sku))
            && r.fbsCancelled == Figure(absorbed, PickBucket(Fbs, true, r.sku))
            && r.totalCancelled == Figure(absorbed, PickSku(true, r.sku))
  {
    var r := rows[i];
    assert ReportRowOk(r, LinesOf(absorbed));
    var row := RowPart(r);
    assert Bucket(row, Fbo, false) == Units(LinesOf(absorbed), ByBucket(r.sku, Fbo, false));
    assert Bucket(row, Fbs, false) == Units(LinesOf(absorbed), ByBucket(r.sku, Fbs, false));
    assert Bucket(row, Fbo, true) == Units(LinesOf(absorbed), ByBucket(r.sku, Fbo, true));
    assert Bucket(row, Fbs, true) == Units(LinesOf(absorbed), ByBucket(r.sku, Fbs, true));
    UnitsAreFigures(absorbed, ByBucket(r.sku, Fbo, false), PickBucket(Fbo, false, r.sku));
    UnitsAreFigures(absorbed, ByBucket(r.sku, Fbs, false), PickBucket(Fbs, false, r.sku));
    UnitsAreFigures(absorbed, BySkuOutcome(r.sku, false), PickSku(false, r.sku));
    UnitsAreFigures(absorbed, ByBucket(r.sku, Fbo, true), PickBucket(Fbo, true, r.sku));
    UnitsAreFigures(absorbed, ByBucket(r.sku, Fbs, true), PickBucket(Fbs, true, r.sku));
    UnitsAreFigures(absorbed, BySkuOutcome(r.sku, true), PickSku(true, r.sku));
  }

  /** A status entry is there exactly when units have that status, and is their sum. */
  lemma StatusesInFields(absorbed: seq<Shipment>, t: Totals, rows: seq<ReportRow>, i: nat, status: string)
    requires IsReport(absorbed, t, rows) && i < |rows|
    ensures var r := rows[i];
            var fbo := Figure(absorbed, PickStatus(Fbo, status, r.sku));
            var fbs := Figure(absorbed, PickStatus(Fbs, status, r.sku));
            && (status in r.fboStatus <==> fbo > 0) && (status in r.fboStatus ==> r.fboStatus[status] == fbo)
            && (status in r.fbsStatus <==> fbs > 0) && (status in r.fbsStatus ==> r.fbsStatus[status] == fbs)
  {
    var r := rows[i];
    assert ReportRowOk(r, LinesOf(absorbed));
    UnitsAreFigures(absorbed, ByStatus(r.sku, Fbo, status), PickStatus(Fbo, status, r.sku));
    UnitsAreFigures(absorbed, ByStatus(r.sku, Fbs, status), PickStatus(Fbs, status, r.sku));
  }

  lemma TotalsInFields(absorbed: seq<Shipment>, t: Totals, rows: seq<ReportRow>)
    requires IsReport(absorbed, t, rows)
    ensures t.fboPostings == SumBy(absorbed, PostingWeight(Fbo)) && t.fbsPostings == SumBy(absorbed, PostingWeight(Fbs))
    ensures t.fboNonCancelled == Figure(absorbed, PickScheme(Fbo, false))
    ensures t.fbsNonCancelled == Figure(absorbed, PickScheme(Fbs, false))
    ensures t.totalNonCancelled == Figure(absorbed, PickOutcome(false))
    ensures t.fboCancelled == Figure(absorbed, PickScheme(Fbo, true))
    ensures t.fbsCancelled == Figure(absorbed, PickScheme(Fbs, true))
    ensures t.totalCancelled == Figure(absorbed, PickOutcome(true))
  {
    var lines := LinesOf(absorbed);
    assert TotalBucket(t, Fbo, false) == Units(lines, ByScheme(Fbo, false)) && TotalBucket(t, Fbs, false) == Units(lines, ByScheme(Fbs, false));
    assert TotalBucket(t, Fbo, true) == Units(lines, ByScheme(Fbo, true)) && TotalBucket(t, Fbs, true) == Units(lines, ByScheme(Fbs, true));
    UnitsAreFigures(absorbed, ByScheme(Fbo, false), PickScheme(Fbo, false));
    UnitsAreFigures(absorbed, ByScheme(Fbs, false), PickScheme(Fbs, false));
    UnitsAreFigures(absorbed, ByOutcome(false), PickOutcome(false));
    UnitsAreFigures(absorbed, ByScheme(Fbo, true), PickScheme(Fbo, true));
    UnitsAreFigures(absorbed, ByScheme(Fbs, true), PickScheme(Fbs, true));
    UnitsAreFigures(absorbed, ByOutcome(true), PickOutcome(true));
    SumByPointwise(NumbersOf(absorbed), CountsScheme(Fbo), absorbed, PostingWeight(Fbo));
    SumByPointwise(NumbersOf(absorbed), CountsScheme(Fbs), absorbed, PostingWeight(Fbs));
  }
}
