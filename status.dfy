/** The three-valued outcome the registry reports. Its concrete definition lives
    in layout/status.hpp, which is not part of this model; only the three values
    and their names are used. */
module Handle {
  datatype Status = Success | Failure | Nullable
}
