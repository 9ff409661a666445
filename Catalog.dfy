/** The menu catalog: the default items, adding an item under a slug id,
    changing a price, removing an item, and the remap of four items' images
    to bundled assets when the menu is loaded. */
module Catalog {
  import opened Records
  import opened Text

  function Ids(menu: seq<MenuItem>): (r: seq<string>)
    ensures |r| == |menu|
    ensures forall i :: 0 <= i < |menu| ==> r[i] == menu[i].id
  {
    seq(|menu|, i requires 0 <= i < |menu| => menu[i].id)
  }

  /** A menu the screens can use: at least one item, no id twice. */
  predicate CatalogValid(menu: seq<MenuItem>) {
    |menu| >= 1 && Distinct(Ids(menu))
  }

  // ---- slug ids ----

  /** `.replace(/\s+/g, '-')`: each maximal run of white space becomes one '-'. */
  function Hyphenate(s: string): string
    decreases |s|
  {
    if s == [] then []
    else if IsSpace(s[0]) then
      var rest := TrimStart(s);
      assert rest == [] || !IsSpace(rest[0]);
      assert |rest| < |s|;
      "-" + Hyphenate(rest)
    else [s[0]] + Hyphenate(s[1..])
  }

  /** The id of a new item: its English name lowercased, white-space runs
      turned into '-'. */
  function Slug(english: string): string {
    Hyphenate(Lower(english))
  }

  lemma {:induction false} HyphenateNoSpace(s: string)
    ensures NoSpace(Hyphenate(s))
    decreases |s|
  {
    if s != [] {
      if IsSpace(s[0]) {
        var rest := TrimStart(s);
        HyphenateNoSpace(rest);
        var h := Hyphenate(rest);
        assert Hyphenate(s) == ['-'] + h;
        assert !IsSpace('-');
      } else {
        HyphenateNoSpace(s[1..]);
        assert Hyphenate(s) == [s[0]] + Hyphenate(s[1..]);
      }
    }
  }

  lemma {:induction false} HyphenateNoUpper(s: string)
    requires NoUpper(s)
    ensures NoUpper(Hyphenate(s))
    decreases |s|
  {
    if s != [] {
      if IsSpace(s[0]) {
        var rest := TrimStart(s);
        TrimStartSuffix(s);
        assert forall i :: 0 <= i < |rest| ==> rest[i] == s[|s| - |rest| + i];
        HyphenateNoUpper(rest);
        assert Hyphenate(s) == ['-'] + Hyphenate(rest);
      } else {
        assert NoUpper(s[1..]) by {
          assert forall i :: 0 <= i < |s[1..]| ==> s[1..][i] == s[i + 1];
        }
        HyphenateNoUpper(s[1..]);
        assert Hyphenate(s) == [s[0]] + Hyphenate(s[1..]);
      }
    }
  }

  lemma {:induction false} HyphenateSpaceless(s: string)
    requires NoSpace(s)
    ensures Hyphenate(s) == s
    decreases |s|
  {
    if s != [] {
      assert !IsSpace(s[0]);
      assert NoSpace(s[1..]) by {
        assert forall i :: 0 <= i < |s[1..]| ==> s[1..][i] == s[i + 1];
      }
      HyphenateSpaceless(s[1..]);
      assert s == [s[0]] + s[1..];
    }
  }

  lemma LowerShape(s: string)
    ensures NoUpper(Lower(s))
    ensures NoSpace(s) ==> NoSpace(Lower(s))
    ensures NoUpper(s) ==> Lower(s) == s
  {
  }

  /** A slug holds no white space and no upper-case letter, and slugging it
      again leaves it as it is. */
  lemma SlugShape(english: string)
    ensures NoSpace(Slug(english)) && NoUpper(Slug(english))
    ensures Slug(Slug(english)) == Slug(english)
  {
    var l := Lower(english);
    LowerShape(english);
    HyphenateNoSpace(l);
    HyphenateNoUpper(l);
    var h := Slug(english);
    LowerShape(h);
    HyphenateSpaceless(h);
  }

  // ---- adding an item ----

  /** The image used when none is given. */
  const DefaultImage: string := "https://images.unsplash.com/photo-1565299624946-b28f40a0ae38?w=400&h=300&fit=crop"

  /** addNewMenuItem: trimmed names must be non-empty and the price a
      positive number; the id is the slug of the English name and must be
      new; the item goes at the end. */
  function AddMenuItem(menu: seq<MenuItem>, englishIn: string, tamilIn: string, priceIn: Option<real>,
                       imageIn: string): Result<seq<MenuItem>>
  {
    var english := Trim(englishIn);
    var tamil := Trim(tamilIn);
    var image := if Trim(imageIn) != "" then Trim(imageIn) else DefaultImage;
    if english == "" || tamil == "" || priceIn.None? || priceIn.value <= 0.0 then Err(InvalidFields)
    else
      var id := Slug(english);
      if id in Ids(menu) then Err(DuplicateItem)
      else Ok(menu + [MenuItem(id, english, tamil, priceIn.value, image)])
  }

  lemma DistinctSnoc(s: seq<string>, x: string)
    requires Distinct(s) && x !in s
    ensures Distinct(s + [x])
  {
  }

  /** Refused exactly for blank names or a missing or non-positive price
      (InvalidFields) and for a slug already present (DuplicateItem);
      accepted, the menu gains one item at the end, with a slug id, trimmed
      names and a positive price. */
  lemma AddMenuItemEffect(menu: seq<MenuItem>, englishIn: string, tamilIn: string, priceIn: Option<real>, imageIn: string)
    ensures var r := AddMenuItem(menu, englishIn, tamilIn, priceIn, imageIn);
      var invalid := Trim(englishIn) == "" || Trim(tamilIn) == "" || priceIn.None? || priceIn.value <= 0.0;
      (invalid ==> r == Err(InvalidFields)) &&
      (!invalid && Slug(Trim(englishIn)) in Ids(menu) ==> r == Err(DuplicateItem)) &&
      (!invalid && Slug(Trim(englishIn)) !in Ids(menu) ==>
         r.Ok? && |r.value| == |menu| + 1 && r.value[..|menu|] == menu &&
         r.value[|menu|].id == Slug(Trim(englishIn)) && r.value[|menu|].english == Trim(englishIn) &&
         r.value[|menu|].tamil == Trim(tamilIn) && r.value[|menu|].price == priceIn.value > 0.0 &&
         (Trim(imageIn) == "" ==> r.value[|menu|].image == DefaultImage) &&
         (Trim(imageIn) != "" ==> r.value[|menu|].image == Trim(imageIn)))
  {
  }

  /** Adding keeps a valid catalog valid: the new id is fresh. */
  lemma AddMenuItemValid(menu: seq<MenuItem>, englishIn: string, tamilIn: string, priceIn: Option<real>, imageIn: string)
    requires CatalogValid(menu)
    requires AddMenuItem(menu, englishIn, tamilIn, priceIn, imageIn).Ok?
    ensures CatalogValid(AddMenuItem(menu, englishIn, tamilIn, priceIn, imageIn).value)
  {
    AddMenuItemEffect(menu, englishIn, tamilIn, priceIn, imageIn);
    var r := AddMenuItem(menu, englishIn, tamilIn, priceIn, imageIn).value;
    var id := r[|menu|].id;
    assert id !in Ids(menu);
    assert Ids(r) == Ids(r[..|menu|]) + [id];
    DistinctSnoc(Ids(menu), id);
  }

  // ---- price edit and removal ----

  /** updateMenuItemPrice: the first item with the id gets the new price;
      an unknown id changes nothing. */
  function PriceUpdated(menu: seq<MenuItem>, id: string, price: real): seq<MenuItem> {
    var k := IndexOf(Ids(menu), id);
    if k == -1 then menu else menu[k := menu[k].(price := price)]
  }

  /** Only a price moves: ids, names and images stay, and so does validity;
      the item with the id now has the new price. */
  lemma PriceUpdatedEffect(menu: seq<MenuItem>, id: string, price: real)
    ensures var r := PriceUpdated(menu, id, price);
      |r| == |menu| && Ids(r) == Ids(menu) &&
      (forall i :: 0 <= i < |menu| ==> r[i] == menu[i] || (menu[i].id == id && r[i] == menu[i].(price := price))) &&
      (id in Ids(menu) ==> r[IndexOf(Ids(menu), id)].price == price) &&
      (id !in Ids(menu) ==> r == menu) &&
      (CatalogValid(menu) ==> CatalogValid(r))
  {
    var r := PriceUpdated(menu, id, price);
    assert Ids(r) == Ids(menu);
  }

  /** `menuItems.filter(item => item.id !== id)` */
  function WithoutItem(menu: seq<MenuItem>, id: string): (r: seq<MenuItem>)
    ensures |r| <= |menu|
  {
    if menu == [] then []
    else (if menu[0].id != id then [menu[0]] else []) + WithoutItem(menu[1..], id)
  }

  /** removeMenuItem: refused while the menu has at most one item; a
      declined confirmation keeps the menu; otherwise every item with the
      id goes. */
  function RemoveMenuItem(menu: seq<MenuItem>, id: string, confirmed: bool): Result<seq<MenuItem>> {
    if |menu| <= 1 then Err(LastItem)
    else if !confirmed then Ok(menu)
    else Ok(WithoutItem(menu, id))
  }

  lemma {:induction false} WithoutItemMembers(menu: seq<MenuItem>, id: string)
    ensures forall m :: m in WithoutItem(menu, id) <==> m in menu && m.id != id
  {
    if menu != [] {
      WithoutItemMembers(menu[1..], id);
      assert menu == [menu[0]] + menu[1..];
    }
  }

  lemma {:induction false} WithoutItemIds(menu: seq<MenuItem>, id: string)
    ensures forall x :: x in Ids(WithoutItem(menu, id)) <==> x in Ids(menu) && x != id
  {
    if menu != [] {
      WithoutItemIds(menu[1..], id);
      var rest := WithoutItem(menu[1..], id);
      assert Ids(menu) == [menu[0].id] + Ids(menu[1..]);
      if menu[0].id != id {
        assert Ids([menu[0]] + rest) == [menu[0].id] + Ids(rest);
      } else {
        assert [] + rest == rest;
      }
    }
  }

  lemma DistinctTail(s: seq<string>)
    requires Distinct(s) && s != []
    ensures Distinct(s[1..]) && s[0] !in s[1..]
  {
    assert forall j :: 0 <= j < |s[1..]| ==> s[1..][j] == s[j + 1];
  }

  lemma DistinctCons(x: string, s: seq<string>)
    requires Distinct(s) && x !in s
    ensures Distinct([x] + s)
  {
  }

  /** With distinct ids, removal keeps the ids distinct. */
  lemma {:induction false} WithoutItemDistinct(menu: seq<MenuItem>, id: string)
    requires Distinct(Ids(menu))
    ensures Distinct(Ids(WithoutItem(menu, id)))
  {
    if menu != [] {
      var tail := menu[1..];
      assert Ids(menu) == [menu[0].id] + Ids(tail);
      DistinctTail(Ids(menu));
      WithoutItemDistinct(tail, id);
      var rest := WithoutItem(tail, id);
      if menu[0].id != id {
        WithoutItemIds(tail, id);
        assert Ids([menu[0]] + rest) == [menu[0].id] + Ids(rest);
        DistinctCons(menu[0].id, Ids(rest));
      } else {
        assert [] + rest == rest;
      }
    }
  }

  /** Removal keeps the remaining items in their menu order. */
  lemma {:induction false} WithoutItemOrder(menu: seq<MenuItem>, id: string)
    ensures IsSubsequence(WithoutItem(menu, id), menu)
  {
    if menu != [] {
      WithoutItemOrder(menu[1..], id);
      var rest := WithoutItem(menu[1..], id);
      if menu[0].id != id {
        assert ([menu[0]] + rest)[1..] == rest;
      } else {
        assert [] + rest == rest;
      }
    }
  }

  /** With distinct ids, removal drops exactly one item when the id is on
      the menu and none otherwise. */
  lemma {:induction false} WithoutItemCount(menu: seq<MenuItem>, id: string)
    requires Distinct(Ids(menu))
    ensures |WithoutItem(menu, id)| == if id in Ids(menu) then |menu| - 1 else |menu|
  {
    if menu != [] {
      var tail := menu[1..];
      assert Ids(menu) == [menu[0].id] + Ids(tail);
      DistinctTail(Ids(menu));
      WithoutItemCount(tail, id);
      var rest := WithoutItem(tail, id);
      if menu[0].id != id {
        assert |WithoutItem(menu, id)| == 1 + |rest|;
      } else {
        assert |WithoutItem(menu, id)| == |rest|;
      }
    }
  }

  /** The catalog never empties: removal is refused at one item, and with
      distinct ids a confirmed removal takes at most one, keeping the rest
      valid. */
  lemma RemoveMenuItemEffect(menu: seq<MenuItem>, id: string, confirmed: bool)
    ensures RemoveMenuItem(menu, id, confirmed).Err? <==> |menu| <= 1
    ensures RemoveMenuItem(menu, id, confirmed).Err? ==> RemoveMenuItem(menu, id, confirmed).error == LastItem
    ensures !confirmed && |menu| > 1 ==> RemoveMenuItem(menu, id, confirmed) == Ok(menu)
    ensures confirmed && |menu| > 1 ==> forall m :: m in RemoveMenuItem(menu, id, confirmed).value <==> m in menu && m.id != id
    ensures RemoveMenuItem(menu, id, confirmed).Ok? ==> IsSubsequence(RemoveMenuItem(menu, id, confirmed).value, menu)
    ensures CatalogValid(menu) && RemoveMenuItem(menu, id, confirmed).Ok? ==>
              CatalogValid(RemoveMenuItem(menu, id, confirmed).value) &&
              |RemoveMenuItem(menu, id, confirmed).value| >= |menu| - 1
  {
    WithoutItemMembers(menu, id);
    WithoutItemOrder(menu, id);
    SubsequenceRefl(menu);
    if CatalogValid(menu) {
      WithoutItemDistinct(menu, id);
      WithoutItemCount(menu, id);
    }
  }

  // ---- image remap on load ----

  /** The fixed table of loadFromStorage: four ids whose image is pointed
      at a bundled asset. */
  function AssetFor(id: string): Option<string> {
    if id == "dosa" then Some("asset/dosa.jpg")
    else if id == "pongal" then Some("asset/pongal.jpg")
    else if id == "poori" then Some("asset/poori.jpg")
    else if id == "chapathi" then Some("asset/chappathi.jpg")
    else None
  }

  function RemapItem(item: MenuItem): MenuItem {
    match AssetFor(item.id)
    case Some(path) => item.(image := path)
    case None => item
  }

  /** The menu after the remap. */
  function Remapped(menu: seq<MenuItem>): (r: seq<MenuItem>)
    ensures |r| == |menu|
    ensures forall i :: 0 <= i < |menu| ==> r[i] == RemapItem(menu[i])
  {
    seq(|menu|, i requires 0 <= i < |menu| => RemapItem(menu[i]))
  }

  /** The remap only ever rewrites the image of a listed id, to its asset;
      every other field and every other item is kept; doing it twice is
      doing it once. */
  lemma RemapEffect(menu: seq<MenuItem>)
    ensures Ids(Remapped(menu)) == Ids(menu)
    ensures forall i :: 0 <= i < |menu| ==>
      var r := Remapped(menu)[i];
      r.id == menu[i].id && r.english == menu[i].english && r.tamil == menu[i].tamil && r.price == menu[i].price &&
      (AssetFor(menu[i].id).Some? ==> r.image == AssetFor(menu[i].id).value) &&
      (AssetFor(menu[i].id).None? ==> r == menu[i])
    ensures Remapped(Remapped(menu)) == Remapped(menu)
    ensures CatalogValid(menu) ==> CatalogValid(Remapped(menu))
  {
    assert Ids(Remapped(menu)) == Ids(menu);
  }

  // ---- the default menu ----

  const IdlyImage: string := "https://images.unsplash.com/photo-1631452180519-c014fe946bc7?ixlib=rb-4.0.3&ixid=M3wxMjA3fDB8MHxwaG90by1wYWdlfHx8fGVufDB8fHx8fA%3D%3D&auto=format&fit=crop&w=400&q=80"
  const MasalaDosaImage: string := "https://images.unsplash.com/photo-1668236543090-82eba5ee5976?ixlib=rb-4.0.3&ixid=M3wxMjA3fDB8MHxwaG90by1wYWdlfHx8fGVufDB8fHx8fA%3D%3D&auto=format&fit=crop&w=400&q=80"
  const VadaImage: string := "https://images.unsplash.com/photo-1565557623262-b51c2513a641?ixlib=rb-4.0.3&ixid=M3wxMjA3fDB8MHxwaG90by1wYWdlfHx8fGVufDB8fHx8fA%3D%3D&auto=format&fit=crop&w=400&q=80"

  /** getDefaultMenuItems */
  function DefaultMenu(): seq<MenuItem> {
    [MenuItem("idly", "Idly", "\U{B87}\U{B9F}\U{BCD}\U{BB2}\U{BBF}", 30.0, IdlyImage),
     MenuItem("dosa", "Dosa", "\U{BA4}\U{BCB}\U{B9A}\U{BC8}", 40.0, "asset/dosa.jpg"),
     MenuItem("masala-dosa", "Masala Dosa", "\U{BAE}\U{B9A}\U{BBE}\U{BB2}\U{BBE} \U{BA4}\U{BCB}\U{B9A}\U{BC8}", 60.0, MasalaDosaImage),
     MenuItem("pongal", "Pongal", "\U{BAA}\U{BCA}\U{B99}\U{BCD}\U{B95}\U{BB2}\U{BCD}", 40.0, "asset/pongal.jpg"),
     MenuItem("poori", "Poori", "\U{BAA}\U{BC2}\U{BB0}\U{BBF}", 50.0, "asset/poori.jpg"),
     MenuItem("vada", "Vada", "\U{BB5}\U{B9F}\U{BC8}", 25.0, VadaImage),
     MenuItem("chapathi", "Chapathi", "\U{B9A}\U{BAA}\U{BCD}\U{BAA}\U{BBE}\U{BA4}\U{BCD}\U{BA4}\U{BBF}", 35.0, "asset/chappathi.jpg")]
  }

  /** The default menu is a valid catalog of positively priced items, and it
      already points at the bundled assets, so the remap leaves it alone. */
  lemma DefaultMenuFacts()
    ensures CatalogValid(DefaultMenu())
    ensures forall m :: m in DefaultMenu() ==> m.price > 0.0
    ensures Remapped(DefaultMenu()) == DefaultMenu()
  {
    DefaultIdsDistinct();
    DefaultMenuRemapped();
  }

  lemma DefaultIdsDistinct()
    ensures Distinct(Ids(DefaultMenu()))
  {
    var ids := Ids(DefaultMenu());
    assert ids == ["idly", "dosa", "masala-dosa", "pongal", "poori", "vada", "chapathi"];
  }

  lemma DefaultMenuRemapped()
    ensures Remapped(DefaultMenu()) == DefaultMenu()
  {
    var m := DefaultMenu();
    forall i | 0 <= i < |m|
      ensures RemapItem(m[i]) == m[i]
    {
    }
  }
}
