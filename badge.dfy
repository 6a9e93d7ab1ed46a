/** The badge atom (`Badge`): the CSS-module class name it derives from its variant. */
module Badge {
  import opened Types
  import opened Strings

  /** `badge${variant.charAt(0).toUpperCase()}${variant.slice(1)}`. */
  function VariantClass(variant: string): string
  {
    "badge" + (if variant == "" then "" else Upper(variant[..1]) + variant[1..])
  }

  /**
   * The class is "badge", then the variant's first character upper-cased, then the rest of the
   * variant unchanged; it is five characters longer than the variant.
   */
  lemma VariantClassShape(variant: string)
    ensures |VariantClass(variant)| == |variant| + 5
    ensures VariantClass(variant)[..5] == "badge"
    ensures variant != "" ==>
      VariantClass(variant)[5] == UpperChar(variant[0]) && VariantClass(variant)[6..] == variant[1..]
  {
  }

  predicate StartsLowerCase(v: string)
  {
    v != "" && 'a' <= v[0] <= 'z'
  }

  /** Variants that start with a lower-case letter give distinct class names. */
  lemma VariantClassInjective(a: string, b: string)
    requires StartsLowerCase(a) && StartsLowerCase(b)
    requires VariantClass(a) == VariantClass(b)
    ensures a == b
  {
    VariantClassShape(a);
    VariantClassShape(b);
    assert a[0] == b[0];
    assert a == [a[0]] + a[1..] && b == [b[0]] + b[1..];
  }

  /** Upper-casing a one-letter lower-case string gives the capital letter 32 code points below. */
  lemma UpperOfLetter(c: char)
    requires 'a' <= c <= 'z'
    ensures Upper([c]) == [(c as int - 32) as char]
  {
    assert |Upper([c])| == 1 && Upper([c])[0] == UpperChar(c);
  }

  /** The six role variants name the classes badgeAdmin ... badgeInactive, all different. */
  lemma RoleVariantClasses(r: UserRole, s: UserRole)
    ensures VariantClass(RoleName(Admin)) == "badgeAdmin"
    ensures VariantClass(RoleName(Editor)) == "badgeEditor"
    ensures VariantClass(RoleName(Viewer)) == "badgeViewer"
    ensures VariantClass(RoleName(Guest)) == "badgeGuest"
    ensures VariantClass(RoleName(Owner)) == "badgeOwner"
    ensures VariantClass(RoleName(Inactive)) == "badgeInactive"
    ensures r != s ==> VariantClass(RoleName(r)) != VariantClass(RoleName(s))
  {
    UpperOfLetter('a');
    UpperOfLetter('e');
    UpperOfLetter('v');
    UpperOfLetter('g');
    UpperOfLetter('o');
    UpperOfLetter('i');
    if r != s && VariantClass(RoleName(r)) == VariantClass(RoleName(s)) {
      VariantClassInjective(RoleName(r), RoleName(s));
    }
  }
}
