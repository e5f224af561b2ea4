/** Database rows as the browser sees them: maps from column names to values,
    and the strict-equality filter that `eq` applies to them. */
module Rows {
  import opened Wrappers

  datatype Value = Str(s: string) | Num(n: int) | Bool(b: bool) | NullValue

  type Row = map<string, Value>

  /** `item[column]`: None (undefined) when the row has no such column. */
  function Column(row: Row, column: string): Option<Value>
  {
    if column in row then Some(row[column]) else None
  }

  /** `item[column] === value` */
  predicate HasValue(row: Row, column: string, value: Value)
  {
    Column(row, column) == Some(value)
  }

  /** `rows.filter(item => item[column] === value)` */
  function FilterEq(rows: seq<Row>, column: string, value: Value): (r: seq<Row>)
    ensures |r| <= |rows|
    ensures forall x :: x in r ==> x in rows && HasValue(x, column, value)
    ensures forall k :: 0 <= k < |rows| && HasValue(rows[k], column, value) ==> rows[k] in r
  {
    if rows == [] then []
    else (if HasValue(rows[0], column, value) then [rows[0]] else []) + FilterEq(rows[1..], column, value)
  }

  /** The head of a concatenation with a non-empty left part is the left part's
      head, and its tail is the left part's tail followed by the right part. */
  lemma SplitHead<T>(a: seq<T>, b: seq<T>)
    requires a != []
    ensures (a + b)[0] == a[0] && (a + b)[1..] == a[1..] + b
  {
  }

  /** Concatenation is associative. */
  lemma Associate<T>(x: seq<T>, y: seq<T>, z: seq<T>)
    ensures x + (y + z) == (x + y) + z
  {
  }

  /** Filtering keeps the relative order of rows: it distributes over concatenation. */
  lemma {:induction false} FilterEqAppend(a: seq<Row>, b: seq<Row>, column: string, value: Value)
    ensures FilterEq(a + b, column, value) == FilterEq(a, column, value) + FilterEq(b, column, value)
  {
    if a == [] {
      assert a + b == b;
    } else {
      var head := if HasValue(a[0], column, value) then [a[0]] else [];
      SplitHead(a, b);
      FilterEqAppend(a[1..], b, column, value);
      Associate(head, FilterEq(a[1..], column, value), FilterEq(b, column, value));
    }
  }

  /** When every row has the value, filtering returns the rows unchanged. */
  lemma {:induction false} FilterEqAllMatch(rows: seq<Row>, column: string, value: Value)
    requires forall k :: 0 <= k < |rows| ==> HasValue(rows[k], column, value)
    ensures FilterEq(rows, column, value) == rows
  {
    if rows != [] {
      FilterEqAllMatch(rows[1..], column, value);
    }
  }
}

/** The preview stand-in for the database client.

    When either connection setting is missing the site runs in mock mode: every
    query is answered from fixed rows rebuilt on each call, `order(...)` ignores
    its arguments, `eq(column, value)` filters with strict equality and `insert`
    resolves without doing anything. Rows are maps from column names to values;
    the clock that stamps `created_at` is a parameter (`now` in milliseconds and
    `stamp`, which renders a time as an ISO string). */
module MockClient {
  import opened Wrappers
  import opened Rows

  /** `!VITE_SUPABASE_URL || !VITE_SUPABASE_ANON_KEY` */
  function MockMode(url: Option<string>, anonKey: Option<string>): (mock: bool)
    ensures mock <==> (url.None? || url == Some("") || anonKey.None? || anonKey == Some(""))
  {
    !Truthy(url) || !Truthy(anonKey)
  }

  function CharacterRow(id: string, name: string, slogan: string, color: string, createdAt: string): Row
  {
    map["id" := Str(id), "name" := Str(name), "slogan" := Str(slogan), "color" := Str(color),
        "created_at" := Str(createdAt)]
  }

  function CofounderRow(id: string, name: string, title: string, bio: string, avatar: string,
                        orderIndex: int, createdAt: string): Row
  {
    map["id" := Str(id), "name" := Str(name), "title" := Str(title), "bio" := Str(bio),
        "avatar_url" := Str(avatar), "order_index" := Num(orderIndex), "created_at" := Str(createdAt)]
  }

  function SongRow(id: string, title: string, description: string, background: string, audio: Value,
                   orderIndex: int, createdAt: string): Row
  {
    map["id" := Str(id), "title" := Str(title), "description" := Str(description),
        "background_image_url" := Str(background), "sample_audio_url" := audio,
        "order_index" := Num(orderIndex), "created_at" := Str(createdAt)]
  }

  /** The fixed columns of a mock product; `created_at` is stamped on each call. */
  datatype ProductSeed = ProductSeed(id: string, name: string, description: string, priceCents: int,
                                     image: string, priceId: string, category: string)

  /** Every mock product is active. */
  function ProductRow(p: ProductSeed, createdAt: string): (r: Row)
    ensures HasValue(r, "is_active", Bool(true))
  {
    map["id" := Str(p.id), "name" := Str(p.name), "description" := Str(p.description),
        "price_cents" := Num(p.priceCents), "image_url" := Str(p.image), "stripe_price_id" := Str(p.priceId),
        "category" := Str(p.category), "created_at" := Str(createdAt), "is_active" := Bool(true)]
  }

  function OrderRow(id: string, sessionId: string, email: string, totalCents: int, createdAt: string): Row
  {
    map["id" := Str(id), "stripe_session_id" := Str(sessionId), "customer_email" := Str(email),
        "total_cents" := Num(totalCents), "status" := Str("completed"), "created_at" := Str(createdAt)]
  }

  function SubscriberRow(id: string, email: string, subscribedAt: string): Row
  {
    map["id" := Str(id), "email" := Str(email), "subscribed_at" := Str(subscribedAt)]
  }

  const DayMillis := 86400000

  const KnownTables := {"characters", "cofounders", "songs", "products", "orders", "newsletter"}

  /** The slogans end in the characters the source file holds: the UTF-8 bytes
      of an emoji read back as Windows-1252 text. */
  function MockCharacters(t: string): seq<Row>
  {
    [ CharacterRow("1", "Luna", "Dream big, sparkle bright! \U{E2}\U{153}\U{A8}", "#FF59F8", t),
      CharacterRow("2", "Zephyr", "Adventure awaits around every corner! \U{F0}\U{178}\U{152}\U{178}", "#00FFB0", t),
      CharacterRow("3", "Pixel", "Code your way to creativity! \U{F0}\U{178}\U{2019}\U{AB}", "#00BFFF", t),
      CharacterRow("4", "Melody", "Music makes the world go round! \U{F0}\U{178}\U{17D}\U{B5}", "#FFD700", t),
      CharacterRow("5", "Cosmo", "Explore the infinite possibilities! \U{F0}\U{178}\U{161}\U{20AC}", "#FF6B6B", t)]
  }

  function MockCofounders(t: string): seq<Row>
  {
    [ CofounderRow("1", "Dan", "Composer & Chief Academic Officer",
        "I am a composer, performer, educator and disability advocate. I am the Chief Academic Officer for the David Z Foundation where we transform lives through the magic of music. BA in Vocal Performance, MA in Music Composition, Education Specialist credentialed in special education for students with extensive support needs. I love to see people connect, learn and grow.",
        "/dan-profile.jpg", 1, t),
      CofounderRow("2", "Julie", "Founder & Creative Director",
        "Founder of JULDD LLC. Designer and creative using AI to create art, animations, music, websites, and full stack apps. Passionate about pushing the boundaries of what's possible with artificial intelligence and creative technology.",
        "/julie-profile.jpg", 2, t),
      CofounderRow("3", "Vicki (Ruh-Roh)", "AI Enthusiast & Automation Expert",
        "AI Enthusiast | Automation Expert | Information/Knowledge Management Consultant | Always Learning. Specializing in streamlining processes and leveraging AI for maximum efficiency and innovation.",
        "/vicki-profile.jpg", 3, t),
      CofounderRow("4", "Morgen", "AI Tool Informant & Crypto Team Leader",
        "Your AI Tool Informant. Keeping you updated with one tool at a time. Created by @morgenvictoria3. Leading women's crypto team in Defcon7 https://defcon-7.com. Expert in emerging AI technologies and blockchain innovation.",
        "/morgen-profile.jpg", 4, t)]
  }

  function MockSongs(t: string): seq<Row>
  {
    [ SongRow("1", "Blast Off Blues", "An interstellar adventure in song form!",
        "/BE631FE2-622F-48BD-A2AC-DE029B0987FA.png", Str("/Space Song.mp3"), 1, t),
      SongRow("2", "Friendship Song", "Celebrating the bonds that make us stronger",
        "https://images.pexels.com/photos/1164674/pexels-photo-1164674.jpeg", NullValue, 2, t),
      SongRow("3", "Space Adventure", "Blast off into an intergalactic musical journey",
        "https://images.pexels.com/photos/586063/pexels-photo-586063.jpeg", NullValue, 3, t),
      SongRow("4", "Adventure Awaits", "An epic journey of discovery and courage with our brave panda explorer",
        "/adventure-awaits.png", Str("/Audio for Adventure Song.mp3"), 4, t)]
  }

  const ProductSeeds: seq<ProductSeed> :=
    [ ProductSeed("1", "Coloring Book", "Beautiful coloring book featuring Panda and friends", 97,
        "https://juldd.tsiprogram.org/wp-content/uploads/2025/07/Screenshot-2025-06-23-155951.png",
        "price_demo_coloring_book", "books"),
      ProductSeed("2", "Character Sticker", "JULDD characters Digital Sticker Download", 97,
        "https://juldd.tsiprogram.org/wp-content/uploads/2025/03/Untitled-design-9.png",
        "price_demo_stickers", "stickers"),
      ProductSeed("3", "Panda T-Shirt", "Soft cotton tee with colorful Wheres Panda?", 2497,
        "https://juldd.tsiprogram.org/wp-content/uploads/2025/07/panda_tshirt.png",
        "price_demo_tshirt", "apparel"),
      ProductSeed("4", "Wheres Panda", "Adventures Across America Digital Book", 297,
        "https://juldd.tsiprogram.org/wp-content/uploads/2025/07/wheres_panda-1.png",
        "price_demo_mug", "accessories"),
      ProductSeed("5", "Complete Song Collection", "Digital download of all JULDD Media songs with bonus content", 999,
        "https://images.pexels.com/photos/167092/pexels-photo-167092.jpeg",
        "price_demo_songs", "digital"),
      ProductSeed("6", "Pixel's Coding Journal", "Interactive journal with coding challenges and creative prompts", 1799,
        "https://images.pexels.com/photos/1181675/pexels-photo-1181675.jpeg",
        "price_demo_journal", "books"),
      ProductSeed("7", "Adventure Awaits Poster", "Beautiful poster featuring our brave panda explorer ready for adventure", 197,
        "https://juldd.tsiprogram.org/wp-content/uploads/2025/07/7b90d88d-4896-4625-a2ca-7843e745d2b0.png",
        "price_demo_poster", "art")]

  function MockProducts(t: string): (rows: seq<Row>)
    ensures |rows| == |ProductSeeds|
    ensures forall k :: 0 <= k < |rows| ==> rows[k] == ProductRow(ProductSeeds[k], t)
  {
    seq(|ProductSeeds|, k requires 0 <= k < |ProductSeeds| => ProductRow(ProductSeeds[k], t))
  }

  function MockOrders(now: int, stamp: int -> string): (rows: seq<Row>)
    ensures |rows| == 3
  {
    [ OrderRow("1", "cs_demo_12345", "parent@example.com", 2499, stamp(now - DayMillis)),
      OrderRow("2", "cs_demo_67890", "family@example.com", 1299, stamp(now - 2 * DayMillis)),
      OrderRow("3", "cs_demo_11111", "teacher@school.edu", 3598, stamp(now - 3 * DayMillis))]
  }

  function MockNewsletter(t: string): (rows: seq<Row>)
    ensures |rows| == 3
  {
    [ SubscriberRow("1", "fan1@example.com", t),
      SubscriberRow("2", "fan2@example.com", t),
      SubscriberRow("3", "fan3@example.com", t)]
  }

  /** `getMockData(table)`: fresh rows for the six known tables, none for any other. */
  function MockData(table: string, now: int, stamp: int -> string): (rows: seq<Row>)
    ensures table !in KnownTables ==> rows == []
  {
    var t := stamp(now);
    if table == "characters" then MockCharacters(t)
    else if table == "cofounders" then MockCofounders(t)
    else if table == "songs" then MockSongs(t)
    else if table == "products" then MockProducts(t)
    else if table == "orders" then MockOrders(now, stamp)
    else if table == "newsletter" then MockNewsletter(t)
    else []
  }

  lemma NewsletterMockSize(now: int, stamp: int -> string)
    ensures |MockData("newsletter", now, stamp)| == 3
  {
  }

  lemma ProductsMockSize(now: int, stamp: int -> string)
    ensures |MockData("products", now, stamp)| == 7
  {
  }

  /** `select('*')` on `orders`, in any order, reads the three mock orders. */
  lemma OrdersQueryReadsMockOrders(column: string, ascending: bool, now: int, stamp: int -> string)
    ensures Order(Select(From("orders"), "*"), column, ascending, now, stamp).outcome.data ==
            Present(MockOrders(now, stamp))
  {
  }

  /** What `await` yields: an object whose `data` and `error` may be undefined. */
  datatype Outcome = Outcome(data: Nullable<seq<Row>>, error: Nullable<string>)

  /** The stages of a query chain. Only `Settled` is a promise; the other stages
      are plain objects holding the next methods of the chain. */
  datatype Stage =
    | FromTable(table: string)
    | Selecting(table: string)
    | Filtering(table: string, column: string, value: Value)
    | Settled(outcome: Outcome)

  function From(table: string): Stage
  {
    FromTable(table)
  }

  /** `.select(columns)`: the column list is ignored. */
  function Select(s: Stage, columns: string): (r: Stage)
    requires s.FromTable?
    ensures r == Selecting(s.table)
  {
    Selecting(s.table)
  }

  function Eq(s: Stage, column: string, value: Value): (r: Stage)
    requires s.Selecting?
    ensures r == Filtering(s.table, column, value)
  {
    Filtering(s.table, column, value)
  }

  /** `.order(column, options)`: both arguments are ignored, so the rows come in
      mock-data order, filtered when the chain has an `eq`. */
  function Order(s: Stage, column: string, ascending: bool, now: int, stamp: int -> string): (r: Stage)
    requires s.Selecting? || s.Filtering?
    ensures r.Settled? && r.outcome.error == Null && r.outcome.data.Present?
    ensures s.Selecting? ==> r.outcome.data.value == MockData(s.table, now, stamp)
    ensures s.Filtering? ==> r.outcome.data.value == FilterEq(MockData(s.table, now, stamp), s.column, s.value)
  {
    var rows := MockData(s.table, now, stamp);
    Settled(Outcome(Present(if s.Selecting? then rows else FilterEq(rows, s.column, s.value)), Null))
  }

  /** A `select(...).eq(column, value).order(...)` chain resolves with exactly the
      mock rows of the table whose column strictly equals the value. */
  lemma EqQueryFilters(table: string, columns: string, column: string, value: Value,
                       orderColumn: string, ascending: bool, now: int, stamp: int -> string)
    ensures Await(Order(Eq(Select(From(table), columns), column, value), orderColumn, ascending, now, stamp)).data ==
            Present(FilterEq(MockData(table, now, stamp), column, value))
  {
  }

  /** `.insert(data)`: resolves with no data and no error; nothing is stored. */
  function Insert(s: Stage, rows: seq<Row>): (r: Stage)
    requires s.FromTable?
    ensures r == Settled(Outcome(Null, Null))
  {
    Settled(Outcome(Null, Null))
  }

  /** `await stage`: a promise yields its outcome; any other stage is an object
      without `then`, so `await` yields the object itself, whose `data` and
      `error` are undefined. */
  function Await(s: Stage): (o: Outcome)
    ensures s.Settled? ==> o == s.outcome
    ensures !s.Settled? ==> o.data == Undefined && o.error == Undefined
  {
    if s.Settled? then s.outcome else Outcome(Undefined, Undefined)
  }

  /** A corrected mock in which `select` and `eq` stages are thenable, as the
      real client's query builders are: awaiting one runs the query as `order`
      would. */
  function AwaitThenable(s: Stage, now: int, stamp: int -> string): (o: Outcome)
    ensures s.Settled? ==> o == Await(s)
    ensures (s.Selecting? || s.Filtering?) ==> o == Order(s, "", true, now, stamp).outcome
  {
    match s
    case Settled(outcome) => outcome
    case FromTable(_) => Outcome(Undefined, Undefined)
    case Selecting(_) => Order(s, "", true, now, stamp).outcome
    case Filtering(_, _, _) => Order(s, "", true, now, stamp).outcome
  }

  /** Reads depend only on the table name and the clock: an insert leaves every
      later read as it was, and its own outcome reports no error. */
  lemma InsertIsInert(table: string, rows: seq<Row>, now: int, stamp: int -> string)
    ensures Await(Insert(From(table), rows)).error == Null
    ensures Await(Order(Select(From(table), "*"), "created_at", false, now, stamp)).data ==
            Present(MockData(table, now, stamp))
  {
  }
}
