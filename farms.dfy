/** The static farm records the monitor and the division routes read (data/farms.js). Missing optional
    strings (JavaScript `undefined`, which the source treats as falsy) are "",
    a missing numeric value is 0. Dates are day numbers. */
module Farms {

  /** The administrative path of a farm (`administrativeData`). */
  datatype Admin = Admin(state: string, district: string, tehsil: string, village: string)

  /** A [lat, lng] vertex. */
  type LatLng = (real, real)

  datatype Farm = Farm(
    id: int,
    farmerName: string,
    crop: string,
    cropType: string,
    location: string,
    polygon: seq<LatLng>,
    area: real,
    sowingDay: int,
    baselineNdvi: real,
    insuranceValue: int,
    admin: Admin)

  /** `farm.cropType || farm.crop`. */
  function CropName(f: Farm): string {
    if f.cropType != "" then f.cropType else f.crop
  }
}
