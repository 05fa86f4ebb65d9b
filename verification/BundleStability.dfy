/**
 When a re-plan is clean: the client compares raw values, so a payload the server rewrites turns
 into a conflict with itself.  After any prefix of an apply the new plan is conflict-free exactly
 when everything written so far comes back as it was sent; model profiles do so exactly when their
 capability and executor lists are strictly sorted and their prices are printed in normal form.
 */
module BundleStability {
  import opened Wrappers
  import opened Ordering
  import opened Bundles
  import opened BundleConvergence
  import opened DecimalText

  /** The server answers with what was sent. */
  predicate ComesBack(be: Backend, w: Write)
  {
    match w
    case PostProject(p) => ContainsExpected(be.projectResponse, p.fields)
    case PostItem(x) => ContainsExpected(be.norm(x), x.fields)
    case PutBinding(_, _) => true
  }

  ghost predicate ItemsAgree(b: Bundle, s: Server)
  {
    forall i :: 0 <= i < |Items(b)| ==> !CompareItem(s, Items(b)[i]).Conflict?
  }

  lemma ConflictFreeParts(b: Bundle, s: Server, be: Backend)
    requires Prepared(b, s, be)
    ensures ConflictFree(b, s) <==>
              (b.project.Some? ==> !CompareProject(s, b.project.value).Conflict?) && ItemsAgree(b, s)
  {
  }

  lemma ItemsAgreeAfterWrite(b: Bundle, s: Server, be: Backend, w: Write, t: Server)
    requires Prepared(b, s, be) && Writes(b, s) != [] && w == Writes(b, s)[0] && Do(s, be, w) == Ok(t)
    ensures ItemsAgree(b, t) <==> ItemsAgree(b, s) && (w.PostItem? ==> ComesBack(be, w))
  {
    hide Closed, External, Typed, BundledMappingsOk;
    FirstWriteKinds(b, s);
    if w.PostItem? {
      var m := FirstMissing(Items(b), s);
      assert w == PostItem(Items(b)[m]);
      assert CompareItem(t, Items(b)[m]).Conflict? <==> !ComesBack(be, w);
      forall i | 0 <= i < |Items(b)| && i != m
        ensures CompareItem(t, Items(b)[i]) == CompareItem(s, Items(b)[i])
      {
        assert Items(b)[i].ident != Items(b)[m].ident;
      }
      assert !CompareItem(s, Items(b)[m]).Conflict?;
    } else {
      forall i | 0 <= i < |Items(b)|
        ensures CompareItem(t, Items(b)[i]) == CompareItem(s, Items(b)[i])
      {
      }
    }
  }

  /** One accepted write keeps a plan clean exactly when it comes back as it was sent. */
  lemma CleanAfterWrite(b: Bundle, s: Server, be: Backend)
    requires Prepared(b, s, be) && Writes(b, s) != [] && Do(s, be, Writes(b, s)[0]).Ok?
    ensures ConflictFree(b, Do(s, be, Writes(b, s)[0]).value) <==> ConflictFree(b, s) && ComesBack(be, Writes(b, s)[0])
  {
    var w := Writes(b, s)[0];
    var t := Do(s, be, w).value;
    FirstWriteKinds(b, s);
    PreparedAfterWrite(b, s, be);
    ConflictFreeParts(b, s, be);
    ConflictFreeParts(b, t, be);
    ItemsAgreeAfterWrite(b, s, be, w, t);
  }

  /** After any prefix, the new plan is conflict-free exactly when all of it came back as sent. */
  lemma {:induction false} ReplanCleanExactly(b: Bundle, s: Server, be: Backend, k: nat)
    requires Prepared(b, s, be) && k <= |Writes(b, s)|
    requires Run(s, be, Writes(b, s)[..k]).Ok?
    ensures ConflictFree(b, Run(s, be, Writes(b, s)[..k]).value) <==>
              ConflictFree(b, s) && forall i :: 0 <= i < k ==> ComesBack(be, Writes(b, s)[i])
    decreases k
  {
    hide Prepared, ConflictFree, ComesBack, Do, Writes;
    var writes := Writes(b, s);
    if k > 0 {
      assert writes[..k][0] == writes[0] && writes[..k][1..] == writes[1..][..k - 1];
      var t := Do(s, be, writes[0]).value;
      ReplanAfterWrite(b, s, be);
      PreparedAfterWrite(b, s, be);
      CleanAfterWrite(b, s, be);
      ReplanCleanExactly(b, t, be, k - 1);
      assert forall i :: 0 <= i < k - 1 ==> writes[1..][i] == writes[i + 1];
      assert (forall i :: 0 <= i < k ==> ComesBack(be, writes[i])) <==>
             ComesBack(be, writes[0]) && (forall i :: 0 <= i < k - 1 ==> ComesBack(be, writes[1..][i])) by {
        if ComesBack(be, writes[0]) && (forall i :: 0 <= i < k - 1 ==> ComesBack(be, writes[1..][i])) {
          forall i | 0 <= i < k
            ensures ComesBack(be, writes[i])
          {
            if i > 0 {
              assert writes[1..][i - 1] == writes[i];
            }
          }
        }
      }
    } else {
      assert writes[..0] == [];
    }
  }

  lemma NothingLeft(b: Bundle, s: Server, be: Backend)
    requires Prepared(b, s, be) && Writes(b, s) == []
    ensures AllUnchanged(b, s) <==> ConflictFree(b, s)
  {
    var m := FirstMissing(Items(b), s);
    assert ProjectWrites(b, s) == [] && BindingWrites(b, s) == [];
    assert m == |Items(b)|;
  }

  /**
   After a complete apply a further plan is all unchanged exactly when every payload it wrote came
   back as it was sent.
   */
  lemma FinalPlanUnchangedExactly(b: Bundle, s: Server, be: Backend)
    requires Prepared(b, s, be) && ConflictFree(b, s) && Run(s, be, Writes(b, s)).Ok?
    ensures AllUnchanged(b, Run(s, be, Writes(b, s)).value) <==>
              forall i :: 0 <= i < |Writes(b, s)| ==> ComesBack(be, Writes(b, s)[i])
  {
    var k := |Writes(b, s)|;
    assert Writes(b, s)[..k] == Writes(b, s) && Writes(b, s)[k..] == [];
    CrashConverges(b, s, be, k);
    ReplanCleanExactly(b, s, be, k);
    NothingLeft(b, Run(s, be, Writes(b, s)).value, be);
  }

  /**
   Applying again after a crash at any point, for payloads that come back as they were sent: the new plan has no
   conflict, so `apply_bundle` goes on; it writes exactly what is missing, ends as the uninterrupted apply ends,
   completes exactly when that does, and then a further plan is all unchanged.
   */
  lemma ReapplyAfterCrash(b: Bundle, s: Server, be: Backend, k: nat)
    requires Prepared(b, s, be) && ConflictFree(b, s) && k <= |Writes(b, s)| && Run(s, be, Writes(b, s)[..k]).Ok?
    requires forall i :: 0 <= i < |Writes(b, s)| ==> ComesBack(be, Writes(b, s)[i])
    ensures var t := Run(s, be, Writes(b, s)[..k]).value;
            && Closed(t) && ConflictFree(b, t) && Writes(b, t) == Writes(b, s)[k..]
            && Run(t, be, Writes(b, t)) == Run(s, be, Writes(b, s))
            && (Run(t, be, Writes(b, t)).Ok? <==> PendingMapsOk(b, s))
            && (Run(t, be, Writes(b, t)).Ok? ==> AllUnchanged(b, Run(t, be, Writes(b, t)).value))
  {
    hide ConflictFree, ComesBack, AllUnchanged, PendingMapsOk, Writes, Run;
    CrashConverges(b, s, be, k);
    ReplanCleanExactly(b, s, be, k);
    ApplyCompletesExactly(b, s, be);
    if Run(s, be, Writes(b, s)).Ok? {
      FinalPlanUnchangedExactly(b, s, be);
    }
  }

  // ---- model profiles ---------------------------------------------------------------

  predicate IsListField(key: string)
  {
    key == "capabilities" || key == "executor_keys"
  }

  predicate IsPriceField(key: string)
  {
    key == "input_cost_per_million" || key == "output_cost_per_million"
  }

  /** How the database stores an amount that has more than six decimals, as a number of millionths. */
  type Rounding = Amount -> nat

  /** Amounts with at most six decimals are stored exactly. */
  ghost predicate ExactOnGrid(round: Rounding)
  {
    forall d: Amount :: d.exponent >= -6 ==> round(d) == d.coefficient * Pow10(d.exponent + 6)
  }

  /** A price after it was stored with six decimals and read back in normal form. */
  function StoredPrice(round: Rounding, d: Amount): Amount
  {
    Normalize(Amount(round(d), -6))
  }

  function AnswerField(round: Rounding, key: string, value: Json): Json
  {
    if IsListField(key) && value.Strings? then Strings(SortSet(value.strings, StringLe))
    else if IsPriceField(key) && value.Text? && Parse(value.text).Some? then
      Text(Print(StoredPrice(round, Parse(value.text).value)))
    else value
  }

  /** What the server answers for a model profile: lists sorted without repetitions, prices in normal form. */
  function ModelAnswer(round: Rounding): Norm
  {
    (x: Item) => map k | k in x.fields :: AnswerField(round, k, x.fields[k])
  }

  ghost predicate ListNormal(s: seq<string>)
  {
    Sorted(s, StringLe) && Distinct(s)
  }

  /** No trailing zero, and at most six decimals. */
  predicate PriceNormal(d: Amount)
  {
    d == Amount(0, 0) || (d.coefficient % 10 != 0 && d.exponent >= -6)
  }

  /** The text of a price in normal form; other texts than prices are left alone. */
  predicate PriceTextNormal(text: string)
  {
    Parse(text).Some? ==> PriceNormal(Parse(text).value) && Print(Parse(text).value) == text
  }

  ghost predicate FieldNormal(key: string, value: Json)
  {
    && (IsListField(key) && value.Strings? ==> ListNormal(value.strings))
    && (IsPriceField(key) && value.Text? ==> PriceTextNormal(value.text))
  }

  ghost predicate ModelNormal(x: Item)
  {
    forall k :: k in x.fields ==> FieldNormal(k, x.fields[k])
  }

  lemma SortSetFixedPoint(s: seq<string>)
    ensures SortSet(s, StringLe) == s <==> ListNormal(s)
  {
    StringOrder();
    SortSetCorrect(s, StringLe);
    if ListNormal(s) {
      StrictlySortedIsUnique(SortSet(s, StringLe), s, StringLe);
    }
  }

  /** A stored price is the one that was sent exactly when that was in normal form, however others are rounded. */
  lemma StoredPriceExactly(round: Rounding, d: Amount)
    requires ExactOnGrid(round)
    ensures StoredPrice(round, d) == d <==> PriceNormal(d)
  {
    NormalizeResult(Amount(round(d), -6));
    if PriceNormal(d) {
      var k := d.exponent + 6;
      assert round(d) == d.coefficient * Pow10(k);
      NormalizeScaled(d.coefficient, d.exponent, k);
      assert d.exponent - k == -6;
    }
  }

  lemma PriceTextExactly(round: Rounding, text: string)
    requires ExactOnGrid(round) && Parse(text).Some?
    ensures Print(StoredPrice(round, Parse(text).value)) == text <==> PriceTextNormal(text)
  {
    hide Print, Parse, StoredPrice;
    var d := Parse(text).value;
    StoredPriceExactly(round, d);
    PrintReads(StoredPrice(round, d));
  }

  /**
   A model profile comes back as it was sent exactly when its lists are strictly sorted and its prices are
   printed in normal form.
   */
  lemma ModelComesBackExactly(round: Rounding, x: Item)
    requires ExactOnGrid(round)
    ensures ContainsExpected(ModelAnswer(round)(x), x.fields) <==> ModelNormal(x)
  {
    hide SortSet, Print, Parse, StoredPrice, ListNormal, PriceTextNormal;
    forall k | k in x.fields
      ensures Get(ModelAnswer(round)(x), k) == x.fields[k] <==> FieldNormal(k, x.fields[k])
    {
      var value := x.fields[k];
      if IsListField(k) && value.Strings? {
        SortSetFixedPoint(value.strings);
      } else if IsPriceField(k) && value.Text? && Parse(value.text).Some? {
        PriceTextExactly(round, value.text);
      } else if IsPriceField(k) && value.Text? {
        NotAPrice(value.text);
      }
    }
  }

  lemma NotAPrice(text: string)
    requires Parse(text).None?
    ensures PriceTextNormal(text)
  {
  }

  const EMPTY_SERVER: Server := Server(map[], map[], map[])

  function OneModel(x: Item): Bundle
  {
    Bundle(None, [], [x], [], [], None)
  }

  lemma OneModelWrites(x: Item)
    requires x.ident.resource.Model? && x.refs.NoRefs?
    ensures Items(OneModel(x)) == [x]
    ensures ValidBundle(OneModel(x)) && ConflictFree(OneModel(x), EMPTY_SERVER) && Closed(EMPTY_SERVER)
    ensures Writes(OneModel(x), EMPTY_SERVER) == [PostItem(x)]
  {
    var b := OneModel(x);
    assert Items(b) == [x] && [x][1..] == [];
    assert ItemWrites([x], EMPTY_SERVER) == [PostItem(x)] + ItemWrites([x][1..], EMPTY_SERVER);
  }

  /**
   The failing family: applying a bundle with one model profile that is not in normal form succeeds, and
   planning the same bundle again reports a conflict with its own write.
   */
  lemma AlteredModelConflictsWithItself(round: Rounding, x: Item)
    requires ExactOnGrid(round) && x.ident.resource.Model? && x.refs.NoRefs? && !ModelNormal(x)
    ensures var be := Backend(ModelAnswer(round), map[], 0);
            var r := Run(EMPTY_SERVER, be, Writes(OneModel(x), EMPTY_SERVER));
            ConflictFree(OneModel(x), EMPTY_SERVER) && r.Ok? && !ConflictFree(OneModel(x), r.value)
  {
    hide ModelNormal, ModelAnswer, ExactOnGrid;
    var be := Backend(ModelAnswer(round), map[], 0);
    var b := OneModel(x);
    OneModelWrites(x);
    ConflictFreeIsPrepared(b, EMPTY_SERVER, be);
    var writes := Writes(b, EMPTY_SERVER);
    assert writes[..1] == writes && writes[1..] == [];
    assert Do(EMPTY_SERVER, be, writes[0]).Ok?;
    ModelComesBackExactly(round, x);
    assert !ComesBack(be, writes[0]);
    ReplanCleanExactly(b, EMPTY_SERVER, be, 1);
  }

  /** A concrete one: capabilities listed as `["b", "a"]`. */
  lemma UnsortedExample()
    ensures !ModelNormal(Item(Ident(Model, "m", 1), map["capabilities" := Strings(["b", "a"])], NoRefs))
  {
    var x := Item(Ident(Model, "m", 1), map["capabilities" := Strings(["b", "a"])], NoRefs);
    var s := ["b", "a"];
    assert s[1..] == ["a"] && "a" in s[1..];
    assert !StringLe("b", "a");
    assert !Below(s[0], s[1..], StringLe);
    assert !Sorted(s, StringLe);
    assert x.fields["capabilities"].strings == s;
    assert !FieldNormal("capabilities", x.fields["capabilities"]);
  }

  lemma FiveHundred()
    ensures Decimal(500) == "500" && Decimal(5) == "5"
  {
    assert Decimal(50) == Decimal(5) + [Digit(0)];
    assert Decimal(500) == Decimal(50) + [Digit(0)];
  }

  /** Another one: a price of `5.00` is answered as `5`. */
  lemma TrailingZerosExample(round: Rounding)
    requires ExactOnGrid(round)
    ensures Parse("5.00") == Some(Amount(500, -2)) && Print(StoredPrice(round, Amount(500, -2))) == "5"
    ensures !ModelNormal(Item(Ident(Model, "m", 1), map["output_cost_per_million" := Text("5.00")], NoRefs))
  {
    hide Parse, Normalize;
    FiveHundred();
    assert Print(Amount(500, -2)) == "5.00";
    PrintReads(Amount(500, -2));
    assert Pow10(4) == 10000 by { assert Pow10(2) == 100; }
    NormalizeScaled(5, 0, 6);
    assert Pow10(6) == 1000000 by { assert Pow10(2) == 100 && Pow10(4) == 10000; }
    assert StoredPrice(round, Amount(500, -2)) == Normalize(Amount(5, 0));
    assert Normalize(Amount(5, 0)) == Amount(5, 0) by { FiveIsNormal(); }
    assert Print(Amount(5, 0)) == "5";
    assert !PriceTextNormal("5.00");
    var key := "output_cost_per_million";
    assert IsPriceField(key) && !FieldNormal(key, Text("5.00"));
    var x := Item(Ident(Model, "m", 1), map[key := Text("5.00")], NoRefs);
    assert key in x.fields && x.fields[key] == Text("5.00");
  }

  lemma FiveIsNormal()
    ensures Normalize(Amount(5, 0)) == Amount(5, 0)
  {
  }
}
