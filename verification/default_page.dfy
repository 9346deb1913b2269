/** The class generated for a page built by one of the base constructors, before any subclass adds arguments. */
module DefaultPage {
  import opened Seqs
  import opened Arguments
  import opened Lines
  import opened PageDefinition
  import opened PageProperties
  import opened ArgumentEmission

  /**
   * A page built from its name alone is not autogenerated, so its class
   * carries the banner; with the empty default attribute list it declares
   * only the bundle field, no getter, title and constructor without
   * parameters and no registration; it attaches the default add-on unless
   * it is an add-on page.
   */
  lemma NameOnlyPage(name: string, isAddonPage: bool, path: string, env: Externals)
    ensures var out := Generate(NewPage(name, isAddonPage), path, env);
      && Count(out, IsWarning) == 7
      && Filter(out, IsFieldOrPageData) == [PageDataField]
      && Count(out, IsGetterLine) == 0
      && Count(out, IsMaterialize) == 0
      && Count(out, IsRegister) == 0
      && Filter(out, IsSignature) == [TitleDecl([]), ConstructorOpen(env.javaClass(name), []), SetTitle([])]
      && Count(out, IsDefaultAddon) == (if isAddonPage then 0 else 1)
  {
    var p := NewPage(name, isAddonPage);
    BannerIffHandWritten(p, path, env);
    FieldsFollowPageData(p, path, env);
    GettersInOrder(p, path, env);
    OneBranchPerArgument(p, path, env);
    RegistrationsInOrder(p, path, env);
    SignaturesListAllArguments(p, path, env);
    DefaultAddonIff(p, path, env);
  }

  /** A page built with the autogenerated flag carries the banner exactly when the flag is false. */
  lemma AutoPageBanner(name: string, autogenerated: bool, isAddonPage: bool, path: string, env: Externals)
    ensures Count(Generate(NewAutoPage(name, autogenerated, isAddonPage), path, env), IsWarning)
         == (if autogenerated then 0 else 7)
  {
    BannerIffHandWritten(NewAutoPage(name, autogenerated, isAddonPage), path, env);
  }
}
