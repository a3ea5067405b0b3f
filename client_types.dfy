/** The records the client receives from the API; ids are the Guid text. */
module ClientTypes {
  datatype ClientProperty = ClientProperty(
    idProperty: string, idOwner: string, ownerName: string, ownerPhoto: string,
    name: string, address: string, price: int, year: int, image: string)

  datatype ClientOwner = ClientOwner(idOwner: string, name: string, address: string, photo: string, birthday: string)
}
