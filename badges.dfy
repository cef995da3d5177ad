/** The Tailwind class pairs the CRM uses for coloured status badges. */
module Badges {
  const Gray := "bg-gray-100 text-gray-800"
  const Red := "bg-red-100 text-red-800"
  const Green := "bg-green-100 text-green-800"
  const Blue := "bg-blue-100 text-blue-800"
  const Yellow := "bg-yellow-100 text-yellow-800"
  const Purple := "bg-purple-100 text-purple-800"
  const Indigo := "bg-indigo-100 text-indigo-800"
  const Orange := "bg-orange-100 text-orange-800"
  const Teal := "bg-teal-100 text-teal-800"
}
