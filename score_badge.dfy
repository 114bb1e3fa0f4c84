/**
 * The Nutri-Score / Eco-Score badge (src/components/ScoreBadge.jsx): a
 * score letter becomes a colour, a size name becomes size classes, and the
 * badge reads "label: LETTER" or "label: N/A" (the `label` prop is `title` here).
 */
module ScoreBadge {
  import opened Wrappers
  import opened Text

  datatype Tone = Green | Yellow | Orange | Red

  /** The colour of an uppercased score: A and E green, B and D yellow, C orange, anything else red. */
  function ToneOf(upper: string): (t: Tone)
    ensures t == Green <==> upper == "A" || upper == "E"
    ensures t == Yellow <==> upper == "B" || upper == "D"
    ensures t == Orange <==> upper == "C"
    ensures t == Red <==> upper != "A" && upper != "B" && upper != "C" && upper != "D" && upper != "E"
  {
    if upper == "A" || upper == "E" then Green
    else if upper == "B" || upper == "D" then Yellow
    else if upper == "C" then Orange
    else Red
  }

  /** Background, text and border classes of a tone. */
  function ToneClasses(t: Tone): string {
    match t
    case Green => "bg-green-100 text-green-800 border-green-300"
    case Yellow => "bg-yellow-100 text-yellow-800 border-yellow-300"
    case Orange => "bg-orange-100 text-orange-800 border-orange-300"
    case Red => "bg-red-100 text-red-800 border-red-300"
  }

  /** The `sizeClasses` table: defined for `sm`, `md` and `lg` only. */
  function SizeClasses(size: string): (c: Option<string>)
    ensures c.Some? <==> size == "sm" || size == "md" || size == "lg"
  {
    if size == "sm" then Some("text-xs px-2 py-0.5")
    else if size == "md" then Some("text-sm px-3 py-1")
    else if size == "lg" then Some("text-base px-4 py-1.5")
    else None
  }

  /** The text size of the "N/A" badge: `sm` and `lg` as named, every other size as `md`. */
  function PlaceholderSize(size: string): (c: string)
    ensures c == (if size == "sm" then "text-xs" else if size == "lg" then "text-base" else "text-sm")
    ensures size == "sm" || size == "md" || size == "lg" ==> c <= SizeClasses(size).value
  {
    if size == "sm" then "text-xs" else if size == "lg" then "text-base" else "text-sm"
  }

  /** How the badge is drawn: the grey "N/A" pill, or a coloured one. */
  datatype Look = Placeholder(textSize: string) | Coloured(tone: Tone, size: Option<string>)

  /**
   * The `className` a look produces. A size the table lacks is modelled as
   * interpolating "undefined"; keys every object inherits, such as
   * "constructor", would interpolate something else and are not modelled.
   */
  function ClassName(look: Look): string {
    match look
    case Placeholder(textSize) =>
      "inline-flex items-center px-3 py-1 rounded-full bg-gray-100 text-gray-600 "
      + "dark:bg-gray-800 dark:text-gray-400 " + textSize
    case Coloured(tone, size) =>
      "inline-flex items-center rounded-full border " + ToneClasses(tone) + " " + size.GetOr("undefined")
  }

  datatype Rendered = Rendered(look: Look, text: string)

  /** The badge for `score` (absent, or a string that may be empty). */
  function Render(score: Option<string>, title: string, size: string): (r: Rendered)
    ensures !Truthy(score) ==> r == Rendered(Placeholder(PlaceholderSize(size)), title + ": N/A")
    ensures Truthy(score) ==> r.look.Coloured? && r.look.size == SizeClasses(size)
    ensures Truthy(score) ==> r.text == title + ": " + ToUpper(score.value) && r.look.tone == ToneOf(ToUpper(score.value))
  {
    if !Truthy(score) then
      Rendered(Placeholder(PlaceholderSize(size)), title + ": N/A")
    else
      var upper := ToUpper(score.value);
      Rendered(Coloured(ToneOf(upper), SizeClasses(size)), title + ": " + upper)
  }

  /** Uppercasing after lowercasing gives the plain uppercase form. */
  lemma UpperOfLower(s: string)
    ensures ToUpper(ToLower(s)) == ToUpper(s)
  {
    forall i | 0 <= i < |s|
      ensures ToUpper(ToLower(s))[i] == ToUpper(s)[i]
    {
      assert ToLower(s)[i] == LowerChar(s[i]);
    }
  }

  /** The badge does not depend on the case of the score. */
  lemma RenderIgnoresCase(s: string, title: string, size: string)
    ensures Render(Some(ToLower(s)), title, size) == Render(Some(s), title, size)
    ensures Render(Some(ToUpper(s)), title, size) == Render(Some(s), title, size)
  {
    UpperOfLower(s);
    ToUpperIdempotent(s);
  }

  /** The letter shown after the title is uppercase, and lowercase grades get their letter's colour. */
  lemma ShownLetterIsUpper(s: string, title: string, size: string)
    requires s != ""
    ensures HasNoLower(Render(Some(s), title, size).text[|title| + 2..])
    ensures ToneOf(ToUpper("a")) == Green && ToneOf(ToUpper("e")) == Green
    ensures ToneOf(ToUpper("b")) == Yellow && ToneOf(ToUpper("d")) == Yellow
    ensures ToneOf(ToUpper("c")) == Orange
  {
    assert Render(Some(s), title, size).text[|title| + 2..] == ToUpper(s);
    assert ToUpper("a") == "A";
    assert ToUpper("b") == "B";
    assert ToUpper("c") == "C";
    assert ToUpper("d") == "D";
    assert ToUpper("e") == "E";
  }

  /** The best and the worst grade are drawn alike, and so are B and D; C differs from both. */
  lemma ColoursAreSymmetricAboutC(title: string, size: string)
    ensures Render(Some("A"), title, size).look == Render(Some("E"), title, size).look
    ensures Render(Some("B"), title, size).look == Render(Some("D"), title, size).look
    ensures Render(Some("A"), title, size).look != Render(Some("C"), title, size).look
    ensures Render(Some("B"), title, size).look != Render(Some("C"), title, size).look
  {
    assert ToUpper("A") == "A" && ToUpper("E") == "E";
    assert ToUpper("B") == "B" && ToUpper("D") == "D";
    assert ToUpper("C") == "C";
  }
}
