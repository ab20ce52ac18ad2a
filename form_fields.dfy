/** The `name` attribute convention shared by the registration and profile
    forms: `handleChange` treats `"parent.child"` as the field `child` of the
    nested object `parent`, and any other name as a top-level field. */
module FormFields {
  import opened Text

  datatype FieldName = Plain(key: string) | Nested(parent: string, child: string)

  /** `name.includes('.')`, then `const [parent, child] = name.split('.')`: the
      first two dot-separated pieces (a deeper path is cut after its second
      piece). */
  function ParseName(name: string): (f: FieldName)
    ensures f.Nested? <==> '.' in name
    ensures f.Plain? ==> f.key == name
    ensures f.Nested? ==> '.' !in f.parent && '.' !in f.child
  {
    if '.' in name then
      var parts := Split(name, '.');
      Nested(parts[0], parts[1])
    else Plain(name)
  }

  /** The name written as `parent + "." + child` (as the forms' selects are named,
      `learningProfile.currentLevel`) is read back as exactly that path. */
  lemma ParseDottedName(parent: string, child: string)
    requires '.' !in parent && '.' !in child
    ensures ParseName(parent + "." + child) == Nested(parent, child)
  {
    assert Join([parent, child], '.') == parent + "." + child;
    SplitJoin([parent, child], '.');
  }
}
