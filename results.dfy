/** Failure values of the harmonic engine. The C++ code throws `std::runtime_error`
    or lets `std::map::at` throw `std::out_of_range`; the model returns them. */
module Results {

  datatype Error =
    | InvalidChordSize(size: nat)   // invert() on more than five offsets
    | CatalogMiss(key: int)         // chords.at(root) for a root that was never cataloged

  datatype Result<T> = Ok(value: T) | Err(error: Error)
}
