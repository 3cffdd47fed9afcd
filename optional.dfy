/** A value that may be absent: the model of a Java reference that may be
    `null`, as wrapped by `java.util.Optional.ofNullable`. */
module Optional {

  datatype Option<+T> = None | Some(value: T) {

    /** The wrapped value, or `other` when there is none (`Optional.orElse`). */
    function OrElse(other: T): T {
      match this
      case Some(v) => v
      case None => other
    }
  }
}
