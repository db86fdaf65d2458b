/** The cases of src/viewmodel/handling/viewCars/__tests__/useCarSearch.test.ts,
    stated about the search model. */
module CarSearchExamples {

  import opened CarEntity
  import opened JsText
  import opened CarSearch
  import opened CarFixtures
  import Seqs

  // One lower-casing fact per value of the fixture cars.
  lemma LowerToyota() ensures ToLower("Toyota") == "toyota" {}
  lemma LowerCorolla() ensures ToLower("Corolla") == "corolla" {}
  lemma LowerAutomatic() ensures ToLower("Automatic") == "automatic" {}
  lemma LowerBlue() ensures ToLower("Blue") == "blue" {}
  lemma LowerHonda() ensures ToLower("Honda") == "honda" {}
  lemma LowerCivic() ensures ToLower("Civic") == "civic" {}
  lemma LowerManual() ensures ToLower("Manual") == "manual" {}
  lemma LowerBlack() ensures ToLower("Black") == "black" {}
  lemma LowerCamry() ensures ToLower("Camry") == "camry" {}
  lemma LowerRed() ensures ToLower("Red") == "red" {}
  lemma LowerTesla() ensures ToLower("Tesla") == "tesla" {}

  lemma Year2020() ensures IntToString(2020) == "2020" { FourDigitText(2020); }
  lemma Lower2020() ensures ToLower("2020") == "2020" {}
  lemma Year2021() ensures IntToString(2021) == "2021" { FourDigitText(2021); }
  lemma Lower2021() ensures ToLower("2021") == "2021" {}
  lemma Year2019() ensures IntToString(2019) == "2019" { FourDigitText(2019); }
  lemma Lower2019() ensures ToLower("2019") == "2019" {}

  lemma CorollaWords()
    ensures CarWords(corolla) == ["Toyota", "Corolla", "Automatic", "2020", "Blue"]
  {
    Year2020();
  }

  lemma CivicWords()
    ensures CarWords(civic) == ["Honda", "Civic", "Manual", "2021", "Black"]
  {
    Year2021();
  }

  lemma CamryWords()
    ensures CarWords(camry) == ["Toyota", "Camry", "Automatic", "2019", "Red"]
  {
    Year2019();
  }

  lemma LowerWordsCons(w: string, ws: seq<string>)
    ensures LowerWords([w] + ws) == [ToLower(w)] + LowerWords(ws)
  {
    assert ([w] + ws)[1..] == ws;
  }

  /** Lower-casing five values, one by one. */
  lemma LowerFive(a: string, b: string, c: string, d: string, e: string)
    ensures LowerWords([a, b, c, d, e]) == [ToLower(a), ToLower(b), ToLower(c), ToLower(d), ToLower(e)]
  {
  }

  lemma CorollaValues()
    ensures LowerWords(CarWords(corolla)) == ["toyota", "corolla", "automatic", "2020", "blue"]
  {
    CorollaWords();
    LowerToyota(); LowerCorolla(); LowerAutomatic(); Lower2020(); LowerBlue();
    LowerFive("Toyota", "Corolla", "Automatic", "2020", "Blue");
  }

  lemma CivicValues()
    ensures LowerWords(CarWords(civic)) == ["honda", "civic", "manual", "2021", "black"]
  {
    CivicWords();
    LowerHonda(); LowerCivic(); LowerManual(); Lower2021(); LowerBlack();
    LowerFive("Honda", "Civic", "Manual", "2021", "Black");
  }

  lemma CamryValues()
    ensures LowerWords(CarWords(camry)) == ["toyota", "camry", "automatic", "2019", "red"]
  {
    CamryWords();
    LowerToyota(); LowerCamry(); LowerAutomatic(); Lower2019(); LowerRed();
    LowerFive("Toyota", "Camry", "Automatic", "2019", "Red");
  }

  /** A text lacking one of the characters of a pattern does not include it. */
  lemma MissingChar(s: string, p: string, ch: char)
    requires ch in p && ch !in s
    ensures !Includes(s, p)
  {
    IncludesIff(s, p);
  }

  /** A car whose lower-cased values contain every term exactly is matched. */
  lemma MatchByValues(c: Car, vals: seq<string>, terms: seq<string>)
    requires LowerWords(CarWords(c)) == vals
    requires forall t :: t in terms ==> t in vals
    ensures InValues(terms)(c)
  {
    forall t | t in terms ensures exists k :: 0 <= k < 5 && Includes(ToLower(CarWords(c)[k]), t) {
      var k :| 0 <= k < |vals| && vals[k] == t;
      IncludesSelf(t);
      assert Includes(ToLower(CarWords(c)[k]), t);
    }
  }

  /** A term that none of the car's lower-cased values includes rules the car out. */
  lemma NoMatchByValues(c: Car, vals: seq<string>, terms: seq<string>, t: string)
    requires LowerWords(CarWords(c)) == vals && t in terms
    requires forall k :: 0 <= k < |vals| ==> !Includes(vals[k], t)
    ensures !InValues(terms)(c)
  {
    assert forall k :: 0 <= k < 5 ==> ToLower(CarWords(c)[k]) == vals[k];
  }

  /** A term that shares, with each value, a character the value lacks is
      included in none of them. */
  lemma EachLacksChar(vals: seq<string>, t: string, chs: string)
    requires |chs| == |vals|
    requires forall k :: 0 <= k < |vals| ==> chs[k] in t && chs[k] !in vals[k]
    ensures forall k :: 0 <= k < |vals| ==> !Includes(vals[k], t)
  {
    forall k | 0 <= k < |vals| ensures !Includes(vals[k], t) {
      MissingChar(vals[k], t, chs[k]);
    }
  }

  /** A term with a character that none of the values holds is included in none of them. */
  lemma NoneHoldsChar(vals: seq<string>, t: string, ch: char)
    requires ch in t
    requires forall k :: 0 <= k < |vals| ==> ch !in vals[k]
    ensures forall k :: 0 <= k < |vals| ==> !Includes(vals[k], t)
  {
    forall k | 0 <= k < |vals| ensures !Includes(vals[k], t) {
      MissingChar(vals[k], t, ch);
    }
  }

  // Characters absent from every lower-cased value of a fixture car.
  lemma CamryLacksLetterN() ensures forall k :: 0 <= k < 5 ==> 'n' !in ["toyota", "camry", "automatic", "2019", "red"][k] {}
  lemma CamryLacksLetterS() ensures forall k :: 0 <= k < 5 ==> 's' !in ["toyota", "camry", "automatic", "2019", "red"][k] {}
  lemma CivicLacksLetterS() ensures forall k :: 0 <= k < 5 ==> 's' !in ["honda", "civic", "manual", "2021", "black"][k] {}
  lemma CivicLacksLetterT() ensures forall k :: 0 <= k < 5 ==> 't' !in ["honda", "civic", "manual", "2021", "black"][k] {}
  lemma CorollaLacksDigit1() ensures forall k :: 0 <= k < 5 ==> '1' !in ["toyota", "corolla", "automatic", "2020", "blue"][k] {}
  lemma CorollaLacksLetterN() ensures forall k :: 0 <= k < 5 ==> 'n' !in ["toyota", "corolla", "automatic", "2020", "blue"][k] {}
  lemma CorollaLacksLetterS() ensures forall k :: 0 <= k < 5 ==> 's' !in ["toyota", "corolla", "automatic", "2020", "blue"][k] {}
  lemma CorollaLacksCamryChars()
    ensures forall k :: 0 <= k < 5 ==> "cmycc"[k] in "camry" && "cmycc"[k] !in ["toyota", "corolla", "automatic", "2020", "blue"][k]
  {
  }

  /** An empty query returns every car. */
  lemma EmptyQueryReturnsAll()
    ensures SearchedCars(carsMock, "") == carsMock
  {
    BlankQueryKeepsAll(carsMock, "");
  }

  /** The Camry's values do not include "2021": only "2019" has its
      characters, and it does not start with it. */
  lemma CamryValuesLack2021()
    ensures forall k :: 0 <= k < 5 ==> !Includes(["toyota", "camry", "automatic", "2019", "red"][k], "2021")
  {
    var vals := ["toyota", "camry", "automatic", "2019", "red"];
    forall k | 0 <= k < 5 ensures !Includes(vals[k], "2021") {
      if k == 3 {
        assert !StartsWith("2019", "2021");
        IncludesNotLonger("019", "2021");
        assert "2019"[1..] == "019";
      } else {
        MissingChar(vals[k], "2021", '2');
      }
    }
  }

  lemma BrandTerms() ensures LowerWords(["Toyota"]) == ["toyota"]
  {
    LowerToyota();
    LowerWordsCons("Toyota", []);
  }

  lemma CorollaMatchesBrand() ensures InValues(["toyota"])(corolla)
  {
    CorollaValues();
    MatchByValues(corolla, ["toyota", "corolla", "automatic", "2020", "blue"], ["toyota"]);
  }

  lemma CivicMissesBrand() ensures !InValues(["toyota"])(civic)
  {
    CivicValues();
    CivicLacksLetterT();
    NoneHoldsChar(["honda", "civic", "manual", "2021", "black"], "toyota", 't');
    NoMatchByValues(civic, ["honda", "civic", "manual", "2021", "black"], ["toyota"], "toyota");
  }

  lemma CamryMatchesBrand() ensures InValues(["toyota"])(camry)
  {
    CamryValues();
    MatchByValues(camry, ["toyota", "camry", "automatic", "2019", "red"], ["toyota"]);
  }

  lemma BrandQuery()
    ensures JoinWords(["Toyota"]) == "Toyota"
    ensures forall k :: 0 <= k < 1 ==> IsWord(["Toyota"][k])
  {
  }

  /** "Toyota" finds the two Toyotas, in their original order. */
  lemma SearchByBrand()
    ensures SearchedCars(carsMock, "Toyota") == [corolla, camry]
  {
    BrandQuery();
    SearchByWords(carsMock, ["Toyota"]);
    BrandTerms();
    CorollaMatchesBrand(); CivicMissesBrand(); CamryMatchesBrand();
    Filter3(corolla, civic, camry, InValues(["toyota"]));
  }

  lemma BrandAndModelTerms() ensures LowerWords(["Toyota", "Camry"]) == ["toyota", "camry"]
  {
    LowerToyota(); LowerCamry();
    LowerWordsCons("Toyota", ["Camry"]);
    LowerWordsCons("Camry", []);
  }

  lemma CorollaMissesBrandAndModel() ensures !InValues(["toyota", "camry"])(corolla)
  {
    CorollaValues();
    CorollaLacksCamryChars();
    EachLacksChar(["toyota", "corolla", "automatic", "2020", "blue"], "camry", "cmycc");
    NoMatchByValues(corolla, ["toyota", "corolla", "automatic", "2020", "blue"], ["toyota", "camry"], "camry");
  }

  lemma CivicMissesBrandAndModel() ensures !InValues(["toyota", "camry"])(civic)
  {
    CivicValues();
    CivicLacksLetterT();
    NoneHoldsChar(["honda", "civic", "manual", "2021", "black"], "toyota", 't');
    NoMatchByValues(civic, ["honda", "civic", "manual", "2021", "black"], ["toyota", "camry"], "toyota");
  }

  lemma CamryMatchesBrandAndModel() ensures InValues(["toyota", "camry"])(camry)
  {
    CamryValues();
    MatchByValues(camry, ["toyota", "camry", "automatic", "2019", "red"], ["toyota", "camry"]);
  }

  lemma BrandAndModelQuery()
    ensures JoinWords(["Toyota", "Camry"]) == "Toyota Camry"
    ensures forall k :: 0 <= k < 2 ==> IsWord(["Toyota", "Camry"][k])
  {
  }

  /** "Toyota Camry" finds only the Camry. */
  lemma SearchByBrandAndModel()
    ensures SearchedCars(carsMock, "Toyota Camry") == [camry]
  {
    BrandAndModelQuery();
    SearchByWords(carsMock, ["Toyota", "Camry"]);
    BrandAndModelTerms();
    CorollaMissesBrandAndModel(); CivicMissesBrandAndModel(); CamryMatchesBrandAndModel();
    Filter3(corolla, civic, camry, InValues(["toyota", "camry"]));
  }

  lemma YearTerms() ensures LowerWords(["2021"]) == ["2021"]
  {
    Lower2021();
    LowerWordsCons("2021", []);
  }

  lemma CorollaMissesYear() ensures !InValues(["2021"])(corolla)
  {
    CorollaValues();
    CorollaLacksDigit1();
    NoneHoldsChar(["toyota", "corolla", "automatic", "2020", "blue"], "2021", '1');
    NoMatchByValues(corolla, ["toyota", "corolla", "automatic", "2020", "blue"], ["2021"], "2021");
  }

  lemma CivicMatchesYear() ensures InValues(["2021"])(civic)
  {
    CivicValues();
    MatchByValues(civic, ["honda", "civic", "manual", "2021", "black"], ["2021"]);
  }

  lemma CamryMissesYear() ensures !InValues(["2021"])(camry)
  {
    CamryValues();
    CamryValuesLack2021();
    NoMatchByValues(camry, ["toyota", "camry", "automatic", "2019", "red"], ["2021"], "2021");
  }

  lemma YearQuery()
    ensures JoinWords(["2021"]) == "2021"
    ensures forall k :: 0 <= k < 1 ==> IsWord(["2021"][k])
  {
  }

  /** "2021" finds the car made in 2021. */
  lemma SearchByYear()
    ensures SearchedCars(carsMock, "2021") == [civic]
  {
    YearQuery();
    SearchByWords(carsMock, ["2021"]);
    YearTerms();
    CorollaMissesYear(); CivicMatchesYear(); CamryMissesYear();
    Filter3(corolla, civic, camry, InValues(["2021"]));
  }

  lemma ManyTermsTerms() ensures LowerWords(["Manual", "Black", "2021"]) == ["manual", "black", "2021"]
  {
    LowerManual(); LowerBlack(); Lower2021();
    LowerWordsCons("Manual", ["Black", "2021"]);
    LowerWordsCons("Black", ["2021"]);
    LowerWordsCons("2021", []);
  }

  lemma CorollaMissesManyTerms() ensures !InValues(["manual", "black", "2021"])(corolla)
  {
    CorollaValues();
    CorollaLacksLetterN();
    NoneHoldsChar(["toyota", "corolla", "automatic", "2020", "blue"], "manual", 'n');
    NoMatchByValues(corolla, ["toyota", "corolla", "automatic", "2020", "blue"], ["manual", "black", "2021"], "manual");
  }

  lemma CivicMatchesManyTerms() ensures InValues(["manual", "black", "2021"])(civic)
  {
    CivicValues();
    MatchByValues(civic, ["honda", "civic", "manual", "2021", "black"], ["manual", "black", "2021"]);
  }

  lemma CamryMissesManyTerms() ensures !InValues(["manual", "black", "2021"])(camry)
  {
    CamryValues();
    CamryLacksLetterN();
    NoneHoldsChar(["toyota", "camry", "automatic", "2019", "red"], "manual", 'n');
    NoMatchByValues(camry, ["toyota", "camry", "automatic", "2019", "red"], ["manual", "black", "2021"], "manual");
  }

  lemma JoinThree(a: string, b: string, c: string)
    ensures JoinWords([a, b, c]) == a + " " + b + " " + c
  {
    assert [a, b, c][1..] == [b, c];
    assert [b, c][1..] == [c];
    assert JoinWords([b, c]) == b + " " + c;
    assert a + " " + (b + " " + c) == a + " " + b + " " + c;
  }

  lemma ManyTermsQuery()
    ensures JoinWords(["Manual", "Black", "2021"]) == "Manual Black 2021"
    ensures forall k :: 0 <= k < 3 ==> IsWord(["Manual", "Black", "2021"][k])
  {
    JoinThree("Manual", "Black", "2021");
    assert IsWord("Manual") && IsWord("Black") && IsWord("2021");
  }

  /** "Manual Black 2021" finds only the Civic. */
  lemma SearchByManyTerms()
    ensures SearchedCars(carsMock, "Manual Black 2021") == [civic]
  {
    ManyTermsQuery();
    SearchByWords(carsMock, ["Manual", "Black", "2021"]);
    ManyTermsTerms();
    CorollaMissesManyTerms(); CivicMatchesManyTerms(); CamryMissesManyTerms();
    Filter3(corolla, civic, camry, InValues(["manual", "black", "2021"]));
  }

  lemma NoMatchTerms() ensures LowerWords(["Tesla"]) == ["tesla"]
  {
    LowerTesla();
    LowerWordsCons("Tesla", []);
  }

  lemma CorollaMissesNoMatch() ensures !InValues(["tesla"])(corolla)
  {
    CorollaValues();
    CorollaLacksLetterS();
    NoneHoldsChar(["toyota", "corolla", "automatic", "2020", "blue"], "tesla", 's');
    NoMatchByValues(corolla, ["toyota", "corolla", "automatic", "2020", "blue"], ["tesla"], "tesla");
  }

  lemma CivicMissesNoMatch() ensures !InValues(["tesla"])(civic)
  {
    CivicValues();
    CivicLacksLetterS();
    NoneHoldsChar(["honda", "civic", "manual", "2021", "black"], "tesla", 's');
    NoMatchByValues(civic, ["honda", "civic", "manual", "2021", "black"], ["tesla"], "tesla");
  }

  lemma CamryMissesNoMatch() ensures !InValues(["tesla"])(camry)
  {
    CamryValues();
    CamryLacksLetterS();
    NoneHoldsChar(["toyota", "camry", "automatic", "2019", "red"], "tesla", 's');
    NoMatchByValues(camry, ["toyota", "camry", "automatic", "2019", "red"], ["tesla"], "tesla");
  }

  lemma NoMatchQuery()
    ensures JoinWords(["Tesla"]) == "Tesla"
    ensures forall k :: 0 <= k < 1 ==> IsWord(["Tesla"][k])
  {
  }

  /** "Tesla" matches nothing. */
  lemma SearchByNoMatch()
    ensures SearchedCars(carsMock, "Tesla") == []
  {
    NoMatchQuery();
    SearchByWords(carsMock, ["Tesla"]);
    NoMatchTerms();
    CorollaMissesNoMatch(); CivicMissesNoMatch(); CamryMissesNoMatch();
    Filter3(corolla, civic, camry, InValues(["tesla"]));
  }
}
