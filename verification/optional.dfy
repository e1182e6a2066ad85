/** The absence-or-value type the resolver returns in place of java.util.Optional
    (and in place of a nullable reference for the request's fields). */
module Optional {

  datatype Option<+T> = None | Some(value: T)

}
