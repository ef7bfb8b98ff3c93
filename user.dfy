/** The signed-in user as the client keeps it. */
module Users {

  /** `User`; the date of birth is a point in time, written as seconds since an epoch. */
  datatype User = User(id: string, fullName: string, email: string, dateOfBirth: int)
}
