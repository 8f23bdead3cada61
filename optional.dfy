/** The optional value used where the guide's data or results may be absent
    (`tags?` on an entry, the `null` that means "no search filter"). */
module Optional {

  datatype Option<+T> = None | Some(value: T)
}
