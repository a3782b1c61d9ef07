/** The "Our Work" cards and their image carousel (src/components/our-work.tsx):
    the images a card opens with, next/previous navigation that wraps around,
    opening and closing, and the two-thumbnail preview with its "+n more"
    count. The image tables are parameters. */
module OurWork {
  import opened Js
  import opened Images

  /** A program card: its key, title and configured gallery entries. */
  datatype WorkItem = WorkItem(key: string, title: string, gallery: seq<Path>)

  /** `gallery.filter(Boolean)`: the present entries, in order. */
  function PresentEntries(gallery: seq<Path>): (r: seq<Path>)
    ensures |r| == CountPresent(gallery)
    ensures Subsequence(r, gallery)
    ensures forall i | 0 <= i < |r| :: Present(r[i])
    ensures forall p :: p in r <==> p in gallery && Present(p)
  {
    if gallery == [] then []
    else
      var rest := PresentEntries(gallery[1..]);
      if Present(gallery[0]) then
        assert ([gallery[0]] + rest)[1..] == rest;
        [gallery[0]] + rest
      else
        rest
  }

  /** How many entries of a gallery are present. */
  function CountPresent(gallery: seq<Path>): nat {
    if gallery == [] then 0
    else (if Present(gallery[0]) then 1 else 0) + CountPresent(gallery[1..])
  }

  /** `workItems.find(w => w.key === key)`: the first item with the key. */
  function Find(items: seq<WorkItem>, key: string): (r: Option<WorkItem>)
    ensures r.Some? <==> exists i | 0 <= i < |items| :: items[i].key == key
    ensures r.Some? ==> r.value in items && r.value.key == key
    ensures r.Some? ==> exists i | 0 <= i < |items| ::
      items[i] == r.value && forall j | 0 <= j < i :: items[j].key != key
  {
    if items == [] then None
    else if items[0].key == key then Some(items[0])
    else
      var rest := Find(items[1..], key);
      assert forall i | 1 <= i < |items| :: items[i] == items[1..][i - 1];
      rest
  }

  /** `activeImages`: nothing without an active card; otherwise the card's
      main image (or the placeholder) followed by its present gallery
      entries. The `[placeholder]` alternative for an empty list is never
      taken. */
  function ActiveImages(active: Option<WorkItem>, mainImage: string -> Path): (r: seq<Path>)
    ensures active.None? ==> r == []
    ensures active.Some? ==>
      && |r| == 1 + CountPresent(active.value.gallery)
      && r[0] == GetImage(mainImage(active.value.key), Placeholder)
      && r[1..] == PresentEntries(active.value.gallery)
    ensures forall i | 0 <= i < |r| :: Present(r[i])
  {
    if active.None? then []
    else
      var base := GetImage(mainImage(active.value.key), Placeholder);
      var all := [base] + PresentEntries(active.value.gallery);
      if |all| > 0 then all else [Placeholder]
  }

  /** JavaScript's `%` on integers: the remainder takes the sign of the
      dividend. */
  function JsRemainder(a: int, n: int): (r: int)
    requires n > 0
    ensures a >= 0 ==> 0 <= r < n
    ensures a < 0 ==> -n < r <= 0
    ensures 0 <= a < n ==> r == a
    ensures n <= a < 2 * n ==> r == a - n
  {
    if a >= 0 then
      if a < n then ModBelow(a, n); a % n
      else if a < 2 * n then ModShift(a - n, n); a % n
      else a % n
    else -((-a) % n)
  }

  lemma ModBelow(a: int, n: int)
    requires 0 <= a < n
    ensures a % n == a
  {
  }

  lemma ModShift(a: int, n: int)
    requires 0 <= a < n
    ensures (a + n) % n == a
  {
  }

  /** `goNext`: one step forward, wrapping to the start; nothing happens when
      there are no images. */
  function GoNext(index: int, n: nat): (r: int)
    ensures n == 0 ==> r == index
    ensures n > 0 && 0 <= index < n ==> 0 <= r < n && r == (if index == n - 1 then 0 else index + 1)
  {
    if n == 0 then index else JsRemainder(index + 1, n)
  }

  /** `goPrev`: one step back, wrapping to the end; nothing happens when
      there are no images. */
  function GoPrev(index: int, n: nat): (r: int)
    ensures n == 0 ==> r == index
    ensures n > 0 && 0 <= index < n ==> 0 <= r < n && r == (if index == 0 then n - 1 else index - 1)
  {
    if n == 0 then index else JsRemainder(index - 1 + n, n)
  }

  /** Back after forward, and forward after back, return to where one was. */
  lemma PrevUndoesNext(index: int, n: nat)
    requires 0 <= index < n
    ensures GoPrev(GoNext(index, n), n) == index
    ensures GoNext(GoPrev(index, n), n) == index
  {
  }

  /** `k` steps forward. */
  function Forward(index: int, n: nat, k: nat): int {
    if k == 0 then index else GoNext(Forward(index, n, k - 1), n)
  }

  /** Up to a full round, `k` steps forward land `k` places on, wrapping past
      the last image at most once. */
  lemma {:induction false} ForwardWraps(index: int, n: nat, k: nat)
    requires 0 <= index < n && k <= n
    ensures Forward(index, n, k) == if index + k < n then index + k else index + k - n
  {
    if k > 0 {
      ForwardWraps(index, n, k - 1);
    }
  }

  /** As many steps forward as there are images is a full round. */
  lemma FullRoundIsIdentity(index: int, n: nat)
    requires 0 <= index < n
    ensures Forward(index, n, n) == index
  {
    ForwardWraps(index, n, n);
  }

  /** The carousel state: the open card, if any, and the shown image. */
  datatype Carousel = Carousel(activeKey: Option<string>, index: int)

  /** Clicking a card opens it at its first image. */
  function Open(c: Carousel, key: string): (r: Carousel)
    ensures r.activeKey == Some(key) && r.index == 0
  {
    Carousel(Some(key), 0)
  }

  /** `closeModal`: no open card, back to the first image. */
  function Close(c: Carousel): (r: Carousel)
    ensures r.activeKey.None? && r.index == 0
  {
    Carousel(None, 0)
  }

  /** Navigation keeps the index within the open card's images. */
  lemma NavigationStaysInRange(c: Carousel, items: seq<WorkItem>, mainImage: string -> Path)
    requires c.activeKey.Some? && Find(items, c.activeKey.value).Some?
    requires 0 <= c.index < |ActiveImages(Find(items, c.activeKey.value), mainImage)|
    ensures var n := |ActiveImages(Find(items, c.activeKey.value), mainImage)|;
      0 <= GoNext(c.index, n) < n && 0 <= GoPrev(c.index, n) < n
  {
  }

  /** A card's thumbnails: its first two present gallery entries and how
      many more there are. */
  function Preview(gallery: seq<Path>): (r: (seq<Path>, nat))
    ensures |r.0| <= 2 && |r.0| <= |PresentEntries(gallery)|
    ensures r.0 == PresentEntries(gallery)[..|r.0|]
    ensures |r.0| + r.1 == CountPresent(gallery)
    ensures r.1 > 0 ==> |r.0| == 2
  {
    var present := PresentEntries(gallery);
    var preview := if |present| <= 2 then present else present[..2];
    var remaining := if |present| - |preview| > 0 then |present| - |preview| else 0;
    (preview, remaining)
  }
}
