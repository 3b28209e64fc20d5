/** The loading indicator (src/components/loader.tsx): optional props with defaults,
    two lookup tables keyed by size, and trailing dots that cycle every half second. */
module Loader {
  import opened Common

  datatype Size = Sm | Md | Lg | Xl

  /** The props as passed; a missing prop is `undefined`. */
  datatype LoaderProps = LoaderProps(size: Option<Size>, message: Option<string>, showMessage: Option<bool>,
                                     className: Option<string>)

  /** The props after the defaults in the parameter list are applied. */
  datatype Settings = Settings(size: Size, message: string, showMessage: bool, className: string)

  function WithDefaults(p: LoaderProps): (s: Settings)
    ensures p.size.None? ==> s.size == Md
    ensures p.message.None? ==> s.message == "Loading..."
    ensures p.showMessage.None? ==> s.showMessage
    ensures p.className.None? ==> s.className == ""
    ensures p.size.Some? ==> s.size == p.size.value
    ensures p.message.Some? ==> s.message == p.message.value
    ensures p.showMessage.Some? ==> s.showMessage == p.showMessage.value
    ensures p.className.Some? ==> s.className == p.className.value
  {
    Settings(p.size.GetOr(Md), p.message.GetOr("Loading..."), p.showMessage.GetOr(true), p.className.GetOr(""))
  }

  const SizeClasses: map<Size, string> := map[Sm := "w-12 h-12", Md := "w-20 h-20", Lg := "w-32 h-32", Xl := "w-48 h-48"]
  const TextSizeClasses: map<Size, string> := map[Sm := "text-sm", Md := "text-base", Lg := "text-lg", Xl := "text-xl"]

  /** Both tables cover every size, so each lookup the component makes is defined. */
  lemma TablesCoverEverySize(s: Size)
    ensures s in SizeClasses && s in TextSizeClasses
    ensures SizeClasses.Keys == TextSizeClasses.Keys
  {
  }

  /** The message line: its text class and its text, shown only when `showMessage`. */
  function MessageLine(s: Settings, dots: string): (r: Option<(string, string)>)
    ensures r.Some? <==> s.showMessage
    ensures r.Some? ==> s.size in TextSizeClasses && r.value.0 == TextSizeClasses[s.size] && r.value.1 == s.message + dots
  {
    if s.showMessage then
      TablesCoverEverySize(s.size);
      Some((TextSizeClasses[s.size], s.message + dots))
    else None
  }

  /** One interval step of the dots: three dots become none, anything else gets one more. */
  function NextDots(dots: string): (r: string)
    ensures dots == "..." ==> r == ""
    ensures dots != "..." ==> r == dots + "."
  {
    if dots == "..." then "" else dots + "."
  }

  /** k dots. */
  function DotsOf(k: nat): (r: string)
    ensures |r| == k && forall i :: 0 <= i < k ==> r[i] == '.'
  {
    seq(k, _ => '.')
  }

  /** The dots after n steps from the empty start. */
  function DotsAfter(n: nat): string
  {
    if n == 0 then "" else NextDots(DotsAfter(n - 1))
  }

  /** From "", step n shows n mod 4 dots: length 0..3, repeating with period 4. */
  lemma DotsCycle(n: nat)
    ensures DotsAfter(n) == DotsOf(n % 4)
    ensures |DotsAfter(n)| <= 3
    ensures DotsAfter(n + 4) == DotsAfter(n)
  {
    DotsMod4(n);
    DotsMod4(n + 4);
  }

  lemma {:induction false} DotsMod4(n: nat)
    ensures DotsAfter(n) == DotsOf(n % 4)
  {
    if n > 0 {
      DotsMod4(n - 1);
      var k := (n - 1) % 4;
      if k == 3 {
        assert DotsOf(3) == "...";
      } else {
        assert |DotsOf(k)| != 3;
        assert DotsOf(k) + "." == DotsOf(k + 1);
      }
    }
  }

  class DotsAnimation {
    var dots: string
    /** How many intervals have fired. */
    ghost var ticks: nat

    ghost predicate Valid()
      reads this
    {
      dots == DotsAfter(ticks)
    }

    constructor ()
      ensures Valid() && dots == "" && ticks == 0
    {
      dots := "";
      ticks := 0;
    }

    method Tick()
      requires Valid()
      modifies this
      ensures Valid() && ticks == old(ticks) + 1
      ensures dots == NextDots(old(dots))
      ensures |dots| <= 3
    {
      dots := NextDots(dots);
      ticks := ticks + 1;
      DotsMod4(ticks);
    }
  }
}
