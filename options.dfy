/** The optional value used wherever the script can produce "no result":
    a clustering call that threw, a WCSS that failed, a cluster without a
    centroid. */
module Options {
  datatype Option<T> = None | Some(value: T)
}
