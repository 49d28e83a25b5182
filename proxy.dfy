/** The Proxy pattern: a `ProxyImage` creates its `RealImage` on the first
    `display` and forwards every `display` to it. */
module Proxies {
  import opened Common

  const CreatedLine := "Proxy: created real image"

  function DisplayLine(filename: string): string {
    "displaying " + filename
  }

  function LoadLine(filename: string): string {
    "loading " + filename
  }

  class RealImage {
    const filename: string

    constructor (filename: string)
      ensures this.filename == filename
    {
      this.filename := filename;
    }

    /** The private `load`; nothing in the program calls it. */
    method Load(out: Console)
      modifies out
      ensures out.lines == old(out.lines) + [LoadLine(filename)]
    {
      out.Log("loading " + filename);
    }

    method Display(out: Console)
      modifies out
      ensures out.lines == old(out.lines) + [DisplayLine(filename)]
    {
      out.Log("displaying " + filename);
    }
  }

  /** What one `display` of the proxy prints, given whether the real image
      already exists. */
  function DisplayOutput(filename: string, created: bool): seq<string> {
    if created then [DisplayLine(filename)] else [CreatedLine, DisplayLine(filename)]
  }

  /** What `n` consecutive displays print. */
  function Transcript(filename: string, created: bool, n: nat): seq<string>
    decreases n
  {
    if n == 0 then [] else DisplayOutput(filename, created) + Transcript(filename, true, n - 1)
  }

  class ProxyImage {
    const filename: string
    var realImage: RealImage?

    /** The real image, once it exists, shows the proxy's file. */
    predicate Valid()
      reads this
    {
      realImage != null ==> realImage.filename == filename
    }

    constructor (filename: string)
      ensures this.filename == filename && realImage == null && Valid()
    {
      this.filename := filename;
      realImage := null;
    }

    /** The first call creates the real image and says so; every call then
        displays through the real image, which afterwards stays the same. */
    method Display(out: Console)
      requires Valid()
      modifies this, out
      ensures Valid() && realImage != null
      ensures old(realImage) != null ==> realImage == old(realImage)
      ensures old(realImage) == null ==> fresh(realImage)
      ensures out.lines == old(out.lines) + DisplayOutput(filename, old(realImage) != null)
    {
      if realImage == null {
        realImage := new RealImage(filename);
        out.Log("Proxy: created real image");
      }
      realImage.Display(out);
    }
  }

  /** The creation line is never a display line. */
  lemma CreatedIsNotDisplay(filename: string)
    ensures CreatedLine != DisplayLine(filename)
  {
    assert CreatedLine[0] == 'P' && DisplayLine(filename)[0] == 'd';
  }

  /** However many times the proxy is displayed, the real image is announced at
      most once, and only if it did not exist yet; every display prints its line. */
  lemma {:induction false} CreatedAtMostOnce(filename: string, created: bool, n: nat)
    ensures multiset(Transcript(filename, created, n))[CreatedLine] == (if !created && n > 0 then 1 else 0)
    ensures multiset(Transcript(filename, created, n))[DisplayLine(filename)] == n
    ensures |Transcript(filename, created, n)| == n + (if !created && n > 0 then 1 else 0)
    decreases n
  {
    if n > 0 {
      CreatedAtMostOnce(filename, true, n - 1);
      CreatedIsNotDisplay(filename);
      var head := DisplayOutput(filename, created);
      var rest := Transcript(filename, true, n - 1);
      assert multiset(Transcript(filename, created, n)) == multiset(head) + multiset(rest);
    }
  }

  lemma DemoTexts()
    ensures DisplayLine("photo.png") == "displaying photo.png"
    ensures "displaying photo.png" != LoadLine("photo.png")
  {
    assert LoadLine("photo.png")[0] == 'l';
  }

  /** The demo: two displays create the real image once, print it twice, and
      never print a loading line. */
  method DemoProxy(out: Console)
    modifies out
    ensures out.lines == old(out.lines) + ["Proxy pattern demo:", CreatedLine,
                                           "displaying photo.png", "displaying photo.png"]
    ensures LoadLine("photo.png") !in out.lines[|old(out.lines)|..]
  {
    out.Log("Proxy pattern demo:");
    var img := new ProxyImage("photo.png");
    img.Display(out);
    img.Display(out);
    DemoTexts();
    assert LoadLine("photo.png") != CreatedLine by {
      assert LoadLine("photo.png")[0] == 'l';
    }
    assert LoadLine("photo.png") != "Proxy pattern demo:" by {
      assert LoadLine("photo.png")[0] == 'l';
    }
  }
}
