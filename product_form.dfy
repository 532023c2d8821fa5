/** The admin product form: the slug generated from the product name, and the
    save that updates the edited product or inserts a new one. */
module ProductForm {
  import opened Common
  import opened Store

  // ---------------------------------------------------------------------
  // Slug generation
  // ---------------------------------------------------------------------

  /** The regular-expression class `\w`: ASCII letters, digits and `_`. */
  predicate IsWordChar(c: char)
  {
    IsAsciiUpper(c) || IsAsciiLower(c) || IsDigit(c) || c == '_'
  }

  /** The characters a generated slug is made of. */
  predicate IsSlugChar(c: char)
  {
    IsAsciiLower(c) || IsDigit(c) || c == '_' || c == '-'
  }

  /** `toLowerCase()` (on ASCII letters). */
  function Lower(s: string): (r: string)
    ensures |r| == |s|
    ensures forall i :: 0 <= i < |s| ==> r[i] == ToLowerAscii(s[i])
  {
    seq(|s|, i requires 0 <= i < |s| => ToLowerAscii(s[i]))
  }

  /** `.replace(/[^\w\s]/gi, "")`: every character that is neither a word
      character nor white space is removed; the others keep their order. */
  function RemoveSymbols(s: string): (r: string)
    ensures |r| <= |s|
    ensures forall i :: 0 <= i < |r| ==> IsWordChar(r[i]) || IsSpace(r[i])
  {
    if s == [] then []
    else if IsWordChar(s[0]) || IsSpace(s[0]) then [s[0]] + RemoveSymbols(s[1..])
    else RemoveSymbols(s[1..])
  }

  /** `.replace(/\s+/g, "-")`: each maximal run of white space becomes one
      `-`; every other character is kept. */
  function DashRuns(s: string): (r: string)
    ensures |r| <= |s|
    ensures forall i :: 0 <= i < |r| ==> !IsSpace(r[i])
    decreases |s|
  {
    if s == [] then []
    else if IsSpace(s[0]) then
      var t := TrimStart(s);
      assert t != s;
      "-" + DashRuns(t)
    else [s[0]] + DashRuns(s[1..])
  }

  /** `generateSlug`'s pipeline. */
  function Slug(name: string): string
  {
    DashRuns(RemoveSymbols(Lower(name)))
  }

  /** A slug is made of lower-case ASCII letters, digits, `_` and `-` only,
      so it holds no white space, and is never longer than the name. */
  lemma SlugAlphabet(name: string)
    ensures |Slug(name)| <= |name|
    ensures forall i :: 0 <= i < |Slug(name)| ==> IsSlugChar(Slug(name)[i]) && !IsSpace(Slug(name)[i])
  {
    var lowered := Lower(name);
    RemoveSymbolsNoUpper(lowered);
    var kept := RemoveSymbols(lowered);
    DashRunsAlphabet(kept);
  }

  lemma {:induction false} RemoveSymbolsNoUpper(s: string)
    requires forall i :: 0 <= i < |s| ==> !IsAsciiUpper(s[i])
    ensures forall i :: 0 <= i < |RemoveSymbols(s)| ==> !IsAsciiUpper(RemoveSymbols(s)[i])
  {
    if s != [] {
      RemoveSymbolsNoUpper(s[1..]);
    }
  }

  lemma {:induction false} DashRunsAlphabet(s: string)
    requires forall i :: 0 <= i < |s| ==> (IsWordChar(s[i]) && !IsAsciiUpper(s[i])) || IsSpace(s[i])
    ensures forall i :: 0 <= i < |DashRuns(s)| ==> IsSlugChar(DashRuns(s)[i])
    decreases |s|
  {
    if s != [] {
      if IsSpace(s[0]) {
        var t := TrimStart(s);
        assert t == s[|s| - |t|..];
        DashRunsAlphabet(t);
      } else {
        DashRunsAlphabet(s[1..]);
      }
    }
  }

  /** The pipeline never produces two `-` in a row: `-` only comes from a
      white-space run, and every `-` of the name was removed before. */
  lemma SlugHasNoDoubleDash(name: string)
    ensures forall i :: 0 <= i < |Slug(name)| - 1 ==> !(Slug(name)[i] == '-' && Slug(name)[i + 1] == '-')
  {
    var kept := RemoveSymbols(Lower(name));
    DashRunsNoDoubleDash(kept);
  }

  lemma {:induction false} DashRunsNoDoubleDash(s: string)
    requires forall i :: 0 <= i < |s| ==> s[i] != '-'
    ensures forall i :: 0 <= i < |DashRuns(s)| - 1 ==> !(DashRuns(s)[i] == '-' && DashRuns(s)[i + 1] == '-')
    decreases |s|
  {
    if s != [] {
      var r := DashRuns(s);
      if IsSpace(s[0]) {
        var t := TrimStart(s);
        assert t == s[|s| - |t|..];
        DashRunsNoDoubleDash(t);
        var rest := DashRuns(t);
        assert r == "-" + rest;
        if t != [] {
          assert rest[0] == t[0];
        }
        forall i | 0 <= i < |r| - 1
          ensures !(r[i] == '-' && r[i + 1] == '-')
        {
          if i > 0 {
            assert r[i] == rest[i - 1] && r[i + 1] == rest[i];
          }
        }
      } else {
        DashRunsNoDoubleDash(s[1..]);
        var rest := DashRuns(s[1..]);
        assert r == [s[0]] + rest;
        forall i | 0 <= i < |r| - 1
          ensures !(r[i] == '-' && r[i + 1] == '-')
        {
          if i > 0 {
            assert r[i] == rest[i - 1] && r[i + 1] == rest[i];
          }
        }
      }
    }
  }

  /** Without white space the last step changes nothing: the slug is then
      exactly the name's word characters, lower-cased, in order. */
  lemma {:induction false} DashRunsWithoutSpace(s: string)
    requires forall i :: 0 <= i < |s| ==> !IsSpace(s[i])
    ensures DashRuns(s) == s
  {
    if s != [] {
      DashRunsWithoutSpace(s[1..]);
    }
  }

  /** Hyphens in the name are dropped, not kept: "T-Shirt" gives "tshirt". */
  lemma HyphenDropped()
    ensures Slug("T-Shirt") == "tshirt"
  {
    assert Lower("T-Shirt") == "t" + "-" + "shirt";
    HyphenRemoved();
    TshirtHasNoSpace();
    DashRunsWithoutSpace("tshirt");
  }

  /** The symbol pass drops the hyphen of "t-shirt". */
  lemma HyphenRemoved()
    ensures RemoveSymbols("t" + "-" + "shirt") == "tshirt"
  {
    RemoveSymbolsAppend("t" + "-", "shirt");
    LoneHyphenRemoved();
    RemoveSymbolsOfWord("shirt");
  }

  lemma LoneHyphenRemoved()
    ensures RemoveSymbols("t" + "-") == "t"
  {
    RemoveSymbolsAppend("t", "-");
    RemoveSymbolsOfWord("t");
  }

  lemma TshirtHasNoSpace()
    ensures forall i :: 0 <= i < |"tshirt"| ==> !IsSpace("tshirt"[i])
  {
  }

  lemma {:induction false} RemoveSymbolsAppend(a: string, b: string)
    ensures RemoveSymbols(a + b) == RemoveSymbols(a) + RemoveSymbols(b)
  {
    if a == [] {
      assert a + b == b;
    } else {
      assert (a + b)[1..] == a[1..] + b;
      RemoveSymbolsAppend(a[1..], b);
    }
  }

  lemma {:induction false} RemoveSymbolsOfWord(s: string)
    requires forall i :: 0 <= i < |s| ==> IsWordChar(s[i])
    ensures RemoveSymbols(s) == s
  {
    if s != [] {
      RemoveSymbolsOfWord(s[1..]);
    }
  }

  /** Nothing is trimmed: white space at either end of the name gives a `-`
      at that end of the slug. */
  lemma EdgeSpaceGivesEdgeDash(name: string)
    requires name != []
    ensures IsSpace(name[0]) ==> Slug(name)[0] == '-'
    ensures IsSpace(name[|name| - 1]) ==> |Slug(name)| > 0 && Slug(name)[|Slug(name)| - 1] == '-'
  {
    var lowered := Lower(name);
    if IsSpace(name[0]) {
      assert lowered[0] == name[0];
      assert RemoveSymbols(lowered)[0] == name[0];
    }
    if IsSpace(name[|name| - 1]) {
      assert lowered[|name| - 1] == name[|name| - 1];
      RemoveSymbolsKeepsLastSpace(lowered);
      DashRunsEndsWithDash(RemoveSymbols(lowered));
    }
  }

  lemma {:induction false} RemoveSymbolsKeepsLastSpace(s: string)
    requires s != [] && IsSpace(s[|s| - 1])
    ensures RemoveSymbols(s) != [] && IsSpace(RemoveSymbols(s)[|RemoveSymbols(s)| - 1])
  {
    if |s| > 1 {
      RemoveSymbolsKeepsLastSpace(s[1..]);
    }
  }

  lemma {:induction false} DashRunsEndsWithDash(s: string)
    requires s != [] && IsSpace(s[|s| - 1])
    ensures DashRuns(s) != [] && DashRuns(s)[|DashRuns(s)| - 1] == '-'
    decreases |s|
  {
    var r := DashRuns(s);
    if IsSpace(s[0]) {
      var t := TrimStart(s);
      assert r == "-" + DashRuns(t);
      if t != [] {
        assert t[|t| - 1] == s[|s| - 1];
        DashRunsEndsWithDash(t);
        assert r[|r| - 1] == DashRuns(t)[|DashRuns(t)| - 1];
      }
    } else {
      var rest := s[1..];
      assert rest[|rest| - 1] == s[|s| - 1];
      assert r == [s[0]] + DashRuns(rest);
      DashRunsEndsWithDash(rest);
      assert r[|r| - 1] == DashRuns(rest)[|DashRuns(rest)| - 1];
    }
  }

  // ---------------------------------------------------------------------
  // The form and its save
  // ---------------------------------------------------------------------

  /** The form's fields. */
  datatype FormData = FormData(
    name: string,
    slug: string,
    description: string,
    price: real,
    imageUrl: string,
    categoryId: string,
    stockQuantity: int)

  /** The product being edited, when the form edits one. */
  datatype Initial = Initial(id: nat, values: FormData)

  const EmptyForm := FormData("", "", "", 0.0, "", "", 0)

  /** The row written by either branch of the save. */
  function Row(f: FormData): (p: Product)
    ensures p.name == f.name && p.slug == f.slug && p.price == f.price && p.stock == f.stockQuantity
    ensures p.categoryId == Some(f.categoryId)
    ensures p.description == Some(f.description) && p.imageUrl == Some(f.imageUrl)
  {
    Product(f.name, f.slug, f.price, f.stockQuantity, Some(f.categoryId), Some(f.description), Some(f.imageUrl))
  }

  datatype Outcome = Saved(url: string) | Failed(description: string)

  /** `handleSubmit`: the update of the row with the edited id, or the insert
      of a new row; a write error is reported and nothing is written. */
  function Save(t: Tables, editing: Option<nat>, f: FormData, writeError: Option<string>): (Tables, Outcome)
  {
    if writeError.Some? then (t, Failed(OrElse(writeError.value, "Failed to save product.")))
    else if editing.Some? then
      var id := editing.value;
      (t.(products := if id in t.products then t.products[id := Row(f)] else t.products), Saved("/admin/products"))
    else
      (t.(products := t.products[t.nextId := Row(f)], nextId := t.nextId + 1), Saved("/admin/products"))
  }

  class Form {
    var formData: FormData
    var isLoading: bool
    const editingId: Option<nat>

    /** Starts from the edited product's values, or from an empty form. */
    constructor (initial: Option<Initial>)
      ensures formData == (if initial.Some? then initial.value.values else EmptyForm)
      ensures editingId == (if initial.Some? then Some(initial.value.id) else None)
      ensures !isLoading
    {
      formData := if initial.Some? then initial.value.values else EmptyForm;
      editingId := if initial.Some? then Some(initial.value.id) else None;
      isLoading := false;
    }

    /** `generateSlug`: the slug field is replaced by the name's slug; no
        other field changes. */
    method GenerateSlug()
      modifies this`formData
      ensures formData == old(formData).(slug := Slug(old(formData).name))
    {
      var slug := Slug(formData.name);
      formData := formData.(slug := slug);
    }

    method HandleSubmit(db: Db, writeError: Option<string>) returns (outcome: Outcome)
      modifies db, this`isLoading
      ensures (db.Snapshot(), outcome) == Save(old(db.Snapshot()), editingId, formData, writeError)
      ensures !isLoading
    {
      isLoading := true;
      if writeError.Some? {
        outcome := Failed(OrElse(writeError.value, "Failed to save product."));
      } else if editingId.Some? {
        var id := editingId.value;
        if id in db.products {
          db.products := db.products[id := Row(formData)];
        }
        outcome := Saved("/admin/products");
      } else {
        db.products := db.products[db.nextId := Row(formData)];
        db.nextId := db.nextId + 1;
        outcome := Saved("/admin/products");
      }
      isLoading := false;
    }
  }

  /** Editing rewrites the edited row only: every other product, the other
      tables and the id counter are unchanged. */
  lemma EditWritesOneRow(t: Tables, id: nat, f: FormData)
    ensures var r := Save(t, Some(id), f, None).0;
      && r.products.Keys == t.products.Keys
      && (id in t.products ==> r.products[id] == Row(f))
      && (forall k :: k in t.products && k != id ==> r.products[k] == t.products[k])
      && r.cart == t.cart && r.orders == t.orders && r.orderItems == t.orderItems
      && r.users == t.users && r.nextId == t.nextId
  {
  }

  /** Creating inserts exactly one row, under a fresh id, and keeps the store
      well formed. */
  lemma CreateInsertsOneRow(t: Tables, f: FormData)
    requires WellFormed(t)
    ensures var r := Save(t, None, f, None).0;
      && t.nextId !in t.products
      && r.products.Keys == t.products.Keys + {t.nextId}
      && r.products[t.nextId] == Row(f)
      && (forall k :: k in t.products ==> r.products[k] == t.products[k])
      && WellFormed(r)
  {
  }

  /** A failed write changes nothing and is reported with the store's
      message, or a fallback when the message is empty. */
  lemma FailedSaveWritesNothing(t: Tables, editing: Option<nat>, f: FormData, message: string)
    ensures Save(t, editing, f, Some(message)).0 == t
    ensures Save(t, editing, f, Some(message)).1 == Failed(if message == "" then "Failed to save product." else message)
  {
  }

  /** After `generateSlug` and a successful create, the stored row's slug is
      the name's slug. */
  lemma GeneratedSlugStored(t: Tables, f: FormData)
    ensures var g := f.(slug := Slug(f.name));
      Save(t, None, g, None).0.products[t.nextId].slug == Slug(f.name)
  {
  }
}
