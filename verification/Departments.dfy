/** The departments of the workforce. */
module Departments {
  datatype Department = Reception | CustomerCare | Sales | HR | Finance | Technology | Marketing | Executive
}
