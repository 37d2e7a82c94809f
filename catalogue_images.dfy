/**
 * The image path stored with every catalogue item is the URL that
 * `getProductImageUrl` computes from the item's name.
 *
 * Each name is read as words between runs of separators: a word
 * contributes its lower-case self and every run of separators one hyphen,
 * so the file name is the lower-case words joined by hyphens.
 */
module CatalogueImages {
  import opened Ascii
  import opened Outcomes
  import opened MenuData
  import opened ImageHelper

  predicate Plain(w: string) { forall i :: 0 <= i < |w| ==> !IsSeparator(w[i]) }

  predicate AllSeparators(w: string) { forall i :: 0 <= i < |w| ==> IsSeparator(w[i]) }

  lemma {:induction false} CollapseNoHyphen(x: string, d: bool)
    requires forall i :: 0 <= i < |x| ==> x[i] != '-'
    ensures CollapseHyphens(x, d) == x
    decreases |x|
  {
    if x != [] {
      CollapseHyphensCons(x, d);
      CollapseNoHyphen(x[1..], false);
    }
  }

  lemma {:induction false} CollapseLeadingHyphens(x: string, rest: string)
    requires forall i :: 0 <= i < |x| ==> x[i] == '-'
    ensures CollapseHyphens(x + rest, true) == CollapseHyphens(rest, true)
    decreases |x|
  {
    if x == [] {
      assert x + rest == rest;
    } else {
      assert (x + rest)[1..] == x[1..] + rest;
      CollapseHyphensCons(x + rest, true);
      CollapseLeadingHyphens(x[1..], rest);
    }
  }

  lemma {:induction false} CollapseAfterWord(x: string, rest: string, d: bool)
    requires |x| > 0 && forall i :: 0 <= i < |x| ==> x[i] != '-'
    ensures CollapseHyphens(x + rest, d) == x + CollapseHyphens(rest, false)
    decreases |x|
  {
    assert (x + rest)[0] == x[0];
    assert (x + rest)[1..] == x[1..] + rest;
    CollapseHyphensCons(x + rest, d);
    if |x| > 1 {
      CollapseAfterWord(x[1..], rest, false);
    } else {
      assert x[1..] + rest == rest;
    }
  }

  /** A word followed by separators contributes its lower-case self and one hyphen. */
  lemma WordThenSeparators(w: string, sep: string, rest: string, d: bool)
    requires |w| > 0 && Plain(w) && |sep| > 0 && AllSeparators(sep)
    ensures CollapseHyphens(HyphenMap(w + sep + rest), d) == ToLower(w) + "-" + CollapseHyphens(HyphenMap(rest), true)
  {
    var lw, hs, hr := HyphenMap(w), HyphenMap(sep), HyphenMap(rest);
    assert HyphenMap(w + sep + rest) == lw + (hs + hr);
    assert lw == ToLower(w);
    CollapseAfterWord(lw, hs + hr, d);
    assert (hs + hr)[0] == '-';
    assert (hs + hr)[1..] == hs[1..] + hr;
    CollapseHyphensCons(hs + hr, false);
    CollapseLeadingHyphens(hs[1..], hr);
  }

  /** The last word contributes its lower-case self. */
  lemma LastWord(w: string, d: bool)
    requires |w| > 0 && Plain(w)
    ensures CollapseHyphens(HyphenMap(w), d) == ToLower(w)
  {
    assert HyphenMap(w) == ToLower(w);
    CollapseNoHyphen(HyphenMap(w), d);
  }


  /** The URL of a product whose slug is known. */
  lemma UrlOfSlug(name: string, filename: string, url: string)
    requires Slug(name) == filename
    requires url == ImageDirectory + filename + (if filename == JpegFilename then ".jpg" else ".png")
    ensures GetProductImageUrl(name) == url
  {
  }

  lemma RasamWords(name: string)
    requires name == "Rasam Powder"
    ensures name == "Rasam" + " " + "Powder"
  {}

  lemma RasamLower()
    ensures ToLower("Rasam") == "rasam"
    ensures ToLower("Powder") == "powder"
  {}

  lemma RasamPath()
    ensures "rasam" + "-" + "powder" == JpegFilename
    ensures ImageDirectory + ("rasam" + "-" + "powder") + ".jpg" == "/images/products/rasam-powder.jpg"
  {}

  lemma RasamUrl(name: string)
    requires name == "Rasam Powder"
    ensures GetProductImageUrl(name) == "/images/products/rasam-powder.jpg"
  {
    var w1, s1, w2 := "Rasam", " ", "Powder";
    RasamWords(name);
    WordThenSeparators(w1, s1, w2, false);
    LastWord(w2, true);
    RasamLower();
    RasamPath();
    UrlOfSlug(name, "rasam" + "-" + "powder", "/images/products/rasam-powder.jpg");
  }

  lemma RasamImage()
    ensures MasalaPowders.items[0].image == Some(GetProductImageUrl(MasalaPowders.items[0].name))
  {
    RasamUrl(MasalaPowders.items[0].name);
  }

  lemma SambarWords(name: string)
    requires name == "Sambar Powder"
    ensures name == "Sambar" + " " + "Powder"
  {}

  lemma SambarLower()
    ensures ToLower("Sambar") == "sambar"
    ensures ToLower("Powder") == "powder"
  {}

  lemma SambarPath()
    ensures "sambar" + "-" + "powder" != JpegFilename
    ensures ImageDirectory + ("sambar" + "-" + "powder") + ".png" == "/images/products/sambar-powder.png"
  {
  }

  lemma SambarUrl(name: string)
    requires name == "Sambar Powder"
    ensures GetProductImageUrl(name) == "/images/products/sambar-powder.png"
  {
    var w1, s1, w2 := "Sambar", " ", "Powder";
    SambarWords(name);
    WordThenSeparators(w1, s1, w2, false);
    LastWord(w2, true);
    SambarLower();
    SambarPath();
    UrlOfSlug(name, "sambar" + "-" + "powder", "/images/products/sambar-powder.png");
  }

  lemma SambarImage()
    ensures MasalaPowders.items[1].image == Some(GetProductImageUrl(MasalaPowders.items[1].name))
  {
    SambarUrl(MasalaPowders.items[1].name);
  }

  lemma VangibathWords(name: string)
    requires name == "Vangibath Powder"
    ensures name == "Vangibath" + " " + "Powder"
  {}

  lemma VangibathLower()
    ensures ToLower("Vangibath") == "vangibath"
    ensures ToLower("Powder") == "powder"
  {}

  lemma VangibathPath()
    ensures "vangibath" + "-" + "powder" != JpegFilename
    ensures ImageDirectory + ("vangibath" + "-" + "powder") + ".png" == "/images/products/vangibath-powder.png"
  {
  }

  lemma VangibathUrl(name: string)
    requires name == "Vangibath Powder"
    ensures GetProductImageUrl(name) == "/images/products/vangibath-powder.png"
  {
    var w1, s1, w2 := "Vangibath", " ", "Powder";
    VangibathWords(name);
    WordThenSeparators(w1, s1, w2, false);
    LastWord(w2, true);
    VangibathLower();
    VangibathPath();
    UrlOfSlug(name, "vangibath" + "-" + "powder", "/images/products/vangibath-powder.png");
  }

  lemma VangibathImage()
    ensures MasalaPowders.items[2].image == Some(GetProductImageUrl(MasalaPowders.items[2].name))
  {
    VangibathUrl(MasalaPowders.items[2].name);
  }

  lemma BisibelebathWords(name: string)
    requires name == "Bisibelebath Powder"
    ensures name == "Bisibelebath" + " " + "Powder"
  {}

  lemma BisibelebathLower()
    ensures ToLower("Bisibelebath") == "bisibelebath"
    ensures ToLower("Powder") == "powder"
  {}

  lemma BisibelebathPath()
    ensures "bisibelebath" + "-" + "powder" != JpegFilename
    ensures ImageDirectory + ("bisibelebath" + "-" + "powder") + ".png" == "/images/products/bisibelebath-powder.png"
  {
  }

  lemma BisibelebathUrl(name: string)
    requires name == "Bisibelebath Powder"
    ensures GetProductImageUrl(name) == "/images/products/bisibelebath-powder.png"
  {
    var w1, s1, w2 := "Bisibelebath", " ", "Powder";
    BisibelebathWords(name);
    WordThenSeparators(w1, s1, w2, false);
    LastWord(w2, true);
    BisibelebathLower();
    BisibelebathPath();
    UrlOfSlug(name, "bisibelebath" + "-" + "powder", "/images/products/bisibelebath-powder.png");
  }

  lemma BisibelebathImage()
    ensures MasalaPowders.items[3].image == Some(GetProductImageUrl(MasalaPowders.items[3].name))
  {
    BisibelebathUrl(MasalaPowders.items[3].name);
  }

  lemma MethiWords(name: string)
    requires name == "Methi Powder"
    ensures name == "Methi" + " " + "Powder"
  {}

  lemma MethiLower()
    ensures ToLower("Methi") == "methi"
    ensures ToLower("Powder") == "powder"
  {}

  lemma MethiPath()
    ensures "methi" + "-" + "powder" != JpegFilename
    ensures ImageDirectory + ("methi" + "-" + "powder") + ".png" == "/images/products/methi-powder.png"
  {
    assert ("methi" + "-" + "powder")[0] != JpegFilename[0];
  }

  lemma MethiUrl(name: string)
    requires name == "Methi Powder"
    ensures GetProductImageUrl(name) == "/images/products/methi-powder.png"
  {
    var w1, s1, w2 := "Methi", " ", "Powder";
    MethiWords(name);
    WordThenSeparators(w1, s1, w2, false);
    LastWord(w2, true);
    MethiLower();
    MethiPath();
    UrlOfSlug(name, "methi" + "-" + "powder", "/images/products/methi-powder.png");
  }

  lemma MethiImage()
    ensures MasalaPowders.items[4].image == Some(GetProductImageUrl(MasalaPowders.items[4].name))
  {
    MethiUrl(MasalaPowders.items[4].name);
  }

  lemma ChutneyWords(name: string)
    requires name == "Chutney Powder"
    ensures name == "Chutney" + " " + "Powder"
  {}

  lemma ChutneyLower()
    ensures ToLower("Chutney") == "chutney"
    ensures ToLower("Powder") == "powder"
  {}

  lemma ChutneyPath()
    ensures "chutney" + "-" + "powder" != JpegFilename
    ensures ImageDirectory + ("chutney" + "-" + "powder") + ".png" == "/images/products/chutney-powder.png"
  {
  }

  lemma ChutneyUrl(name: string)
    requires name == "Chutney Powder"
    ensures GetProductImageUrl(name) == "/images/products/chutney-powder.png"
  {
    var w1, s1, w2 := "Chutney", " ", "Powder";
    ChutneyWords(name);
    WordThenSeparators(w1, s1, w2, false);
    LastWord(w2, true);
    ChutneyLower();
    ChutneyPath();
    UrlOfSlug(name, "chutney" + "-" + "powder", "/images/products/chutney-powder.png");
  }

  lemma ChutneyImage()
    ensures MasalaPowders.items[5].image == Some(GetProductImageUrl(MasalaPowders.items[5].name))
  {
    ChutneyUrl(MasalaPowders.items[5].name);
  }

  lemma PuliogareWords(name: string)
    requires name == "Puliogare Gojju - Powder"
    ensures name == "Puliogare" + " " + ("Gojju" + " - " + "Powder")
  {}

  lemma PuliogareLower()
    ensures ToLower("Puliogare") == "puliogare"
    ensures ToLower("Gojju") == "gojju"
    ensures ToLower("Powder") == "powder"
  {}

  lemma PuliogarePath()
    ensures "puliogare" + "-" + ("gojju" + "-" + "powder") != JpegFilename
    ensures ImageDirectory + ("puliogare" + "-" + ("gojju" + "-" + "powder")) + ".png" == "/images/products/puliogare-gojju-powder.png"
  {
  }

  lemma PuliogareUrl(name: string)
    requires name == "Puliogare Gojju - Powder"
    ensures GetProductImageUrl(name) == "/images/products/puliogare-gojju-powder.png"
  {
    var w1, s1, w2, s2, w3 := "Puliogare", " ", "Gojju", " - ", "Powder";
    PuliogareWords(name);
    WordThenSeparators(w1, s1, w2 + s2 + w3, false);
    WordThenSeparators(w2, s2, w3, true);
    LastWord(w3, true);
    PuliogareLower();
    PuliogarePath();
    UrlOfSlug(name, "puliogare" + "-" + ("gojju" + "-" + "powder"), "/images/products/puliogare-gojju-powder.png");
  }

  lemma PuliogareImage()
    ensures MasalaPowders.items[6].image == Some(GetProductImageUrl(MasalaPowders.items[6].name))
  {
    PuliogareUrl(MasalaPowders.items[6].name);
  }

  lemma CorianderWords(name: string)
    requires name == "Coriander Seeds Chutney Powder"
    ensures name == "Coriander" + " " + ("Seeds" + " " + ("Chutney" + " " + "Powder"))
  {}

  lemma CorianderLower()
    ensures ToLower("Coriander") == "coriander"
    ensures ToLower("Seeds") == "seeds"
    ensures ToLower("Chutney") == "chutney"
    ensures ToLower("Powder") == "powder"
  {}

  lemma CorianderPath()
    ensures "coriander" + "-" + ("seeds" + "-" + ("chutney" + "-" + "powder")) != JpegFilename
    ensures ImageDirectory + ("coriander" + "-" + ("seeds" + "-" + ("chutney" + "-" + "powder"))) + ".png" == "/images/products/coriander-seeds-chutney-powder.png"
  {
  }

  lemma CorianderUrl(name: string)
    requires name == "Coriander Seeds Chutney Powder"
    ensures GetProductImageUrl(name) == "/images/products/coriander-seeds-chutney-powder.png"
  {
    var w1, s1, w2, s2, w3, s3, w4 := "Coriander", " ", "Seeds", " ", "Chutney", " ", "Powder";
    CorianderWords(name);
    WordThenSeparators(w1, s1, w2 + s2 + (w3 + s3 + w4), false);
    WordThenSeparators(w2, s2, w3 + s3 + w4, true);
    WordThenSeparators(w3, s3, w4, true);
    LastWord(w4, true);
    CorianderLower();
    CorianderPath();
    UrlOfSlug(name, "coriander" + "-" + ("seeds" + "-" + ("chutney" + "-" + "powder")), "/images/products/coriander-seeds-chutney-powder.png");
  }

  lemma CorianderImage()
    ensures MasalaPowders.items[7].image == Some(GetProductImageUrl(MasalaPowders.items[7].name))
  {
    CorianderUrl(MasalaPowders.items[7].name);
  }

  lemma MangoWords(name: string)
    requires name == "Mango Pickle"
    ensures name == "Mango" + " " + "Pickle"
  {}

  lemma MangoLower()
    ensures ToLower("Mango") == "mango"
    ensures ToLower("Pickle") == "pickle"
  {}

  lemma MangoPath()
    ensures "mango" + "-" + "pickle" != JpegFilename
    ensures ImageDirectory + ("mango" + "-" + "pickle") + ".png" == "/images/products/mango-pickle.png"
  {
    assert ("mango" + "-" + "pickle")[0] != JpegFilename[0];
  }

  lemma MangoUrl(name: string)
    requires name == "Mango Pickle"
    ensures GetProductImageUrl(name) == "/images/products/mango-pickle.png"
  {
    var w1, s1, w2 := "Mango", " ", "Pickle";
    MangoWords(name);
    WordThenSeparators(w1, s1, w2, false);
    LastWord(w2, true);
    MangoLower();
    MangoPath();
    UrlOfSlug(name, "mango" + "-" + "pickle", "/images/products/mango-pickle.png");
  }

  lemma MangoImage()
    ensures HomemadePickles.items[0].image == Some(GetProductImageUrl(HomemadePickles.items[0].name))
  {
    MangoUrl(HomemadePickles.items[0].name);
  }

  lemma LemonWords(name: string)
    requires name == "Lemon Pickle"
    ensures name == "Lemon" + " " + "Pickle"
  {}

  lemma LemonLower()
    ensures ToLower("Lemon") == "lemon"
    ensures ToLower("Pickle") == "pickle"
  {}

  lemma LemonPath()
    ensures "lemon" + "-" + "pickle" != JpegFilename
    ensures ImageDirectory + ("lemon" + "-" + "pickle") + ".png" == "/images/products/lemon-pickle.png"
  {
    assert ("lemon" + "-" + "pickle")[0] != JpegFilename[0];
  }

  lemma LemonUrl(name: string)
    requires name == "Lemon Pickle"
    ensures GetProductImageUrl(name) == "/images/products/lemon-pickle.png"
  {
    var w1, s1, w2 := "Lemon", " ", "Pickle";
    LemonWords(name);
    WordThenSeparators(w1, s1, w2, false);
    LastWord(w2, true);
    LemonLower();
    LemonPath();
    UrlOfSlug(name, "lemon" + "-" + "pickle", "/images/products/lemon-pickle.png");
  }

  lemma LemonImage()
    ensures HomemadePickles.items[1].image == Some(GetProductImageUrl(HomemadePickles.items[1].name))
  {
    LemonUrl(HomemadePickles.items[1].name);
  }

  lemma MixedWords(name: string)
    requires name == "Mixed Vegetable Pickle"
    ensures name == "Mixed" + " " + ("Vegetable" + " " + "Pickle")
  {}

  lemma MixedLower()
    ensures ToLower("Mixed") == "mixed"
    ensures ToLower("Vegetable") == "vegetable"
    ensures ToLower("Pickle") == "pickle"
  {}

  lemma MixedPath()
    ensures "mixed" + "-" + ("vegetable" + "-" + "pickle") != JpegFilename
    ensures ImageDirectory + ("mixed" + "-" + ("vegetable" + "-" + "pickle")) + ".png" == "/images/products/mixed-vegetable-pickle.png"
  {
  }

  lemma MixedUrl(name: string)
    requires name == "Mixed Vegetable Pickle"
    ensures GetProductImageUrl(name) == "/images/products/mixed-vegetable-pickle.png"
  {
    var w1, s1, w2, s2, w3 := "Mixed", " ", "Vegetable", " ", "Pickle";
    MixedWords(name);
    WordThenSeparators(w1, s1, w2 + s2 + w3, false);
    WordThenSeparators(w2, s2, w3, true);
    LastWord(w3, true);
    MixedLower();
    MixedPath();
    UrlOfSlug(name, "mixed" + "-" + ("vegetable" + "-" + "pickle"), "/images/products/mixed-vegetable-pickle.png");
  }

  lemma MixedImage()
    ensures HomemadePickles.items[2].image == Some(GetProductImageUrl(HomemadePickles.items[2].name))
  {
    MixedUrl(HomemadePickles.items[2].name);
  }

  lemma RagiDalsWords(name: string)
    requires name == "Ragi Seri \U{2013} with dals and pulses"
    ensures name == "Ragi" + " " + ("Seri" + " \U{2013} " + ("with" + " " + ("dals" + " " + ("and" + " " + "pulses"))))
  {}

  lemma RagiDalsLower()
    ensures ToLower("Ragi") == "ragi"
    ensures ToLower("Seri") == "seri"
    ensures ToLower("with") == "with"
    ensures ToLower("dals") == "dals"
    ensures ToLower("and") == "and"
    ensures ToLower("pulses") == "pulses"
  {}

  lemma RagiDalsPath()
    ensures "ragi" + "-" + ("seri" + "-" + ("with" + "-" + ("dals" + "-" + ("and" + "-" + "pulses")))) != JpegFilename
    ensures ImageDirectory + ("ragi" + "-" + ("seri" + "-" + ("with" + "-" + ("dals" + "-" + ("and" + "-" + "pulses"))))) + ".png" == "/images/products/ragi-seri-with-dals-and-pulses.png"
  {
  }

  lemma RagiDalsUrl(name: string)
    requires name == "Ragi Seri \U{2013} with dals and pulses"
    ensures GetProductImageUrl(name) == "/images/products/ragi-seri-with-dals-and-pulses.png"
  {
    var w1, s1, w2, s2, w3, s3, w4, s4, w5, s5, w6 := "Ragi", " ", "Seri", " \U{2013} ", "with", " ", "dals", " ", "and", " ", "pulses";
    RagiDalsWords(name);
    WordThenSeparators(w1, s1, w2 + s2 + (w3 + s3 + (w4 + s4 + (w5 + s5 + w6))), false);
    WordThenSeparators(w2, s2, w3 + s3 + (w4 + s4 + (w5 + s5 + w6)), true);
    WordThenSeparators(w3, s3, w4 + s4 + (w5 + s5 + w6), true);
    WordThenSeparators(w4, s4, w5 + s5 + w6, true);
    WordThenSeparators(w5, s5, w6, true);
    LastWord(w6, true);
    RagiDalsLower();
    RagiDalsPath();
    UrlOfSlug(name, "ragi" + "-" + ("seri" + "-" + ("with" + "-" + ("dals" + "-" + ("and" + "-" + "pulses")))), "/images/products/ragi-seri-with-dals-and-pulses.png");
  }

  lemma RagiDalsImage()
    ensures BabyNutrition.items[0].image == Some(GetProductImageUrl(BabyNutrition.items[0].name))
  {
    RagiDalsUrl(BabyNutrition.items[0].name);
  }

  lemma RagiFruitsWords(name: string)
    requires name == "Ragi Seri \U{2013} with dry fruits"
    ensures name == "Ragi" + " " + ("Seri" + " \U{2013} " + ("with" + " " + ("dry" + " " + "fruits")))
  {}

  lemma RagiFruitsLower()
    ensures ToLower("Ragi") == "ragi"
    ensures ToLower("Seri") == "seri"
    ensures ToLower("with") == "with"
    ensures ToLower("dry") == "dry"
    ensures ToLower("fruits") == "fruits"
  {}

  lemma RagiFruitsPath()
    ensures "ragi" + "-" + ("seri" + "-" + ("with" + "-" + ("dry" + "-" + "fruits"))) != JpegFilename
    ensures ImageDirectory + ("ragi" + "-" + ("seri" + "-" + ("with" + "-" + ("dry" + "-" + "fruits")))) + ".png" == "/images/products/ragi-seri-with-dry-fruits.png"
  {
  }

  lemma RagiFruitsUrl(name: string)
    requires name == "Ragi Seri \U{2013} with dry fruits"
    ensures GetProductImageUrl(name) == "/images/products/ragi-seri-with-dry-fruits.png"
  {
    var w1, s1, w2, s2, w3, s3, w4, s4, w5 := "Ragi", " ", "Seri", " \U{2013} ", "with", " ", "dry", " ", "fruits";
    RagiFruitsWords(name);
    WordThenSeparators(w1, s1, w2 + s2 + (w3 + s3 + (w4 + s4 + w5)), false);
    WordThenSeparators(w2, s2, w3 + s3 + (w4 + s4 + w5), true);
    WordThenSeparators(w3, s3, w4 + s4 + w5, true);
    WordThenSeparators(w4, s4, w5, true);
    LastWord(w5, true);
    RagiFruitsLower();
    RagiFruitsPath();
    UrlOfSlug(name, "ragi" + "-" + ("seri" + "-" + ("with" + "-" + ("dry" + "-" + "fruits"))), "/images/products/ragi-seri-with-dry-fruits.png");
  }

  lemma RagiFruitsImage()
    ensures BabyNutrition.items[1].image == Some(GetProductImageUrl(BabyNutrition.items[1].name))
  {
    RagiFruitsUrl(BabyNutrition.items[1].name);
  }

  lemma MilletWords(name: string)
    requires name == "Millet / Multigrain Powder"
    ensures name == "Millet" + " / " + ("Multigrain" + " " + "Powder")
  {}

  lemma MilletLower()
    ensures ToLower("Millet") == "millet"
    ensures ToLower("Multigrain") == "multigrain"
    ensures ToLower("Powder") == "powder"
  {}

  lemma MilletPath()
    ensures "millet" + "-" + ("multigrain" + "-" + "powder") != JpegFilename
    ensures ImageDirectory + ("millet" + "-" + ("multigrain" + "-" + "powder")) + ".png" == "/images/products/millet-multigrain-powder.png"
  {
  }

  lemma MilletUrl(name: string)
    requires name == "Millet / Multigrain Powder"
    ensures GetProductImageUrl(name) == "/images/products/millet-multigrain-powder.png"
  {
    var w1, s1, w2, s2, w3 := "Millet", " / ", "Multigrain", " ", "Powder";
    MilletWords(name);
    WordThenSeparators(w1, s1, w2 + s2 + w3, false);
    WordThenSeparators(w2, s2, w3, true);
    LastWord(w3, true);
    MilletLower();
    MilletPath();
    UrlOfSlug(name, "millet" + "-" + ("multigrain" + "-" + "powder"), "/images/products/millet-multigrain-powder.png");
  }

  lemma MilletImage()
    ensures AdultPowders.items[0].image == Some(GetProductImageUrl(AdultPowders.items[0].name))
  {
    MilletUrl(AdultPowders.items[0].name);
  }

  lemma RagiMaltWords(name: string)
    requires name == "Ragi Malt"
    ensures name == "Ragi" + " " + "Malt"
  {}

  lemma RagiMaltLower()
    ensures ToLower("Ragi") == "ragi"
    ensures ToLower("Malt") == "malt"
  {}

  lemma RagiMaltPath()
    ensures "ragi" + "-" + "malt" != JpegFilename
    ensures ImageDirectory + ("ragi" + "-" + "malt") + ".png" == "/images/products/ragi-malt.png"
  {
  }

  lemma RagiMaltUrl(name: string)
    requires name == "Ragi Malt"
    ensures GetProductImageUrl(name) == "/images/products/ragi-malt.png"
  {
    var w1, s1, w2 := "Ragi", " ", "Malt";
    RagiMaltWords(name);
    WordThenSeparators(w1, s1, w2, false);
    LastWord(w2, true);
    RagiMaltLower();
    RagiMaltPath();
    UrlOfSlug(name, "ragi" + "-" + "malt", "/images/products/ragi-malt.png");
  }

  lemma RagiMaltImage()
    ensures AdultPowders.items[1].image == Some(GetProductImageUrl(AdultPowders.items[1].name))
  {
    RagiMaltUrl(AdultPowders.items[1].name);
  }

  lemma LaddooWords(name: string)
    requires name == "Dry Fruit Laddoo"
    ensures name == "Dry" + " " + ("Fruit" + " " + "Laddoo")
  {}

  lemma LaddooLower()
    ensures ToLower("Dry") == "dry"
    ensures ToLower("Fruit") == "fruit"
    ensures ToLower("Laddoo") == "laddoo"
  {}

  lemma LaddooPath()
    ensures "dry" + "-" + ("fruit" + "-" + "laddoo") != JpegFilename
    ensures ImageDirectory + ("dry" + "-" + ("fruit" + "-" + "laddoo")) + ".png" == "/images/products/dry-fruit-laddoo.png"
  {
  }

  lemma LaddooUrl(name: string)
    requires name == "Dry Fruit Laddoo"
    ensures GetProductImageUrl(name) == "/images/products/dry-fruit-laddoo.png"
  {
    var w1, s1, w2, s2, w3 := "Dry", " ", "Fruit", " ", "Laddoo";
    LaddooWords(name);
    WordThenSeparators(w1, s1, w2 + s2 + w3, false);
    WordThenSeparators(w2, s2, w3, true);
    LastWord(w3, true);
    LaddooLower();
    LaddooPath();
    UrlOfSlug(name, "dry" + "-" + ("fruit" + "-" + "laddoo"), "/images/products/dry-fruit-laddoo.png");
  }

  lemma LaddooImage()
    ensures SpecialCare.items[0].image == Some(GetProductImageUrl(SpecialCare.items[0].name))
  {
    LaddooUrl(SpecialCare.items[0].name);
  }

  lemma MasalaPowdersImages()
    ensures forall it :: it in MasalaPowders.items ==> it.image == Some(GetProductImageUrl(it.name))
  {
    forall i | 0 <= i < |MasalaPowders.items|
      ensures MasalaPowders.items[i].image == Some(GetProductImageUrl(MasalaPowders.items[i].name))
    {
      if i == 0 {
        RasamImage();
      } else if i == 1 {
        SambarImage();
      } else if i == 2 {
        VangibathImage();
      } else if i == 3 {
        BisibelebathImage();
      } else if i == 4 {
        MethiImage();
      } else if i == 5 {
        ChutneyImage();
      } else if i == 6 {
        PuliogareImage();
      } else {
        CorianderImage();
      }
    }
  }

  lemma HomemadePicklesImages()
    ensures forall it :: it in HomemadePickles.items ==> it.image == Some(GetProductImageUrl(it.name))
  {
    forall i | 0 <= i < |HomemadePickles.items|
      ensures HomemadePickles.items[i].image == Some(GetProductImageUrl(HomemadePickles.items[i].name))
    {
      if i == 0 {
        MangoImage();
      } else if i == 1 {
        LemonImage();
      } else {
        MixedImage();
      }
    }
  }

  lemma BabyNutritionImages()
    ensures forall it :: it in BabyNutrition.items ==> it.image == Some(GetProductImageUrl(it.name))
  {
    forall i | 0 <= i < |BabyNutrition.items|
      ensures BabyNutrition.items[i].image == Some(GetProductImageUrl(BabyNutrition.items[i].name))
    {
      if i == 0 {
        RagiDalsImage();
      } else {
        RagiFruitsImage();
      }
    }
  }

  lemma AdultPowdersImages()
    ensures forall it :: it in AdultPowders.items ==> it.image == Some(GetProductImageUrl(it.name))
  {
    forall i | 0 <= i < |AdultPowders.items|
      ensures AdultPowders.items[i].image == Some(GetProductImageUrl(AdultPowders.items[i].name))
    {
      if i == 0 {
        MilletImage();
      } else {
        RagiMaltImage();
      }
    }
  }

  lemma SpecialCareImages()
    ensures forall it :: it in SpecialCare.items ==> it.image == Some(GetProductImageUrl(it.name))
  {
    LaddooImage();
  }

  /** Every catalogue item's stored image path is the URL `getProductImageUrl` gives for its name. */
  lemma CatalogueImagesMatch()
    ensures forall it :: it in GetAllMenuItems() ==> it.image == Some(GetProductImageUrl(it.name))
  {
    AllItemsInOrder();
    MasalaPowdersImages();
    HomemadePicklesImages();
    BabyNutritionImages();
    AdultPowdersImages();
    SpecialCareImages();
  }
}
